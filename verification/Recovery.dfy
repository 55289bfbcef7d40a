/** Conservative recovery: merge a journal of prior records with the records that survived, back
    into the original wire order, and hand every frame to the operation that owns it. */
module Recovery {
  import opened Primitives
  import opened Ledger
  import opened Operations
  import opened Writer
  import opened Journal

  datatype RecoveredOperation = RecoveredOperation(operation: OperationId, delivery: Delivery, frame: Option<Frame>)

  /** One entry of the original order: the record still in the policy, or only its journal copy. */
  datatype Survivor = FromPolicy(record: Record) | FromJournal(entry: JournalOperation)
  {
    function Id(): OperationId {
      if FromPolicy? then record.id else entry.operation
    }

    predicate Finished() {
      if FromPolicy? then record.phase.Terminal? else entry.phase.Terminal?
    }
  }

  // --------------------------------------------------------------- the merge

  datatype Taken = Taken(
    survivors: seq<Survivor>, journal: seq<JournalOperation>, current: seq<Record>, diverged: bool)

  datatype Merged = Merged(survivors: seq<Survivor>, diverged: bool)

  function AtWire(journal: seq<JournalOperation>, w: nat): (r: Option<nat>)
    ensures r.Some? ==> r.value < |journal| && journal[r.value].wireIndex == w
    ensures r.Some? ==> forall j :: 0 <= j < r.value ==> journal[j].wireIndex != w
    ensures r.None? ==> forall j :: 0 <= j < |journal| ==> journal[j].wireIndex != w
  {
    if journal == [] then None
    else if journal[0].wireIndex == w then Some(0)
    else
      var rest := AtWire(journal[1..], w);
      if rest.Some? then Some(rest.value + 1) else None
  }

  /** First surviving record whose identity was not journaled. */
  function FirstUnjournaled(current: seq<Record>, ids: set<OperationId>): (r: Option<nat>)
    ensures r.Some? ==> r.value < |current| && current[r.value].id !in ids
    ensures r.Some? ==> forall j :: 0 <= j < r.value ==> current[j].id in ids
    ensures r.None? ==> forall j :: 0 <= j < |current| ==> current[j].id in ids
  {
    if current == [] then None
    else if current[0].id !in ids then Some(0)
    else
      var rest := FirstUnjournaled(current[1..], ids);
      if rest.Some? then Some(rest.value + 1) else None
  }

  function JournalIds(journal: seq<JournalOperation>): set<OperationId> {
    set i | 0 <= i < |journal| :: journal[i].operation
  }

  /** Journal entries whose record no longer survives. */
  function Missing(journal: seq<JournalOperation>, current: seq<Record>): nat {
    if journal == [] then 0
    else Missing(journal[..|journal| - 1], current)
         + (if IndexOf(current, journal[|journal| - 1].operation).None? then 1 else 0)
  }

  /** Everything journaled at one wire index; more than one entry there is a divergence. */
  function TakeAt(w: nat, journal: seq<JournalOperation>, current: seq<Record>): (t: Taken)
    ensures |t.journal| + |t.survivors| == |journal|
    decreases |journal|
  {
    var index := AtWire(journal, w);
    if index.None? then Taken([], journal, current, false)
    else
      var entry := journal[index.value];
      var live := IndexOf(current, entry.operation);
      var rest := TakeAt(w, RemoveAt(journal, index.value),
                         if live.Some? then RemoveAt(current, live.value) else current);
      Taken([if live.Some? then FromPolicy(current[live.value]) else FromJournal(entry)] + rest.survivors,
            rest.journal, rest.current,
            rest.diverged || rest.survivors != []
            || (live.Some? && current[live.value].effect != entry.effect))
  }

  function Leftover(journal: seq<JournalOperation>, current: seq<Record>): seq<Survivor> {
    seq(|current|, i requires 0 <= i < |current| => FromPolicy(current[i]))
    + seq(|journal|, i requires 0 <= i < |journal| => FromJournal(journal[i]))
  }

  function MergeFrom(
    w: nat, n: nat, journal: seq<JournalOperation>, current: seq<Record>, ids: set<OperationId>): Merged
    decreases n - w
  {
    if n <= w then Merged(Leftover(journal, current), journal != [] || current != [])
    else
      var t := TakeAt(w, journal, current);
      if t.survivors != [] then
        var rest := MergeFrom(w + 1, n, t.journal, t.current, ids);
        Merged(t.survivors + rest.survivors, t.diverged || rest.diverged)
      else
        var next := FirstUnjournaled(current, ids);
        if next.None? then
          var rest := MergeFrom(w + 1, n, journal, current, ids);
          Merged(rest.survivors, true)
        else
          var rest := MergeFrom(w + 1, n, journal, RemoveAt(current, next.value), ids);
          Merged([FromPolicy(current[next.value])] + rest.survivors, rest.diverged)
  }

  function Merge(journal: seq<JournalOperation>, current: seq<Record>): Merged {
    var n := |current| + Missing(journal, current);
    var merged := MergeFrom(0, n, journal, current, JournalIds(journal));
    merged.(diverged := merged.diverged || exists e :: e in journal && e.wireIndex >= n)
  }

  // --------------------------------------------------------------- order of the merge

  /** What became of each prior position: the record now there, or `None` once removed. */
  type Fates = seq<Option<Record>>

  function Kept(fates: Fates, w: nat): seq<Record>
    decreases |fates| - w
  {
    if |fates| <= w then []
    else (if fates[w].Some? then [fates[w].value] else []) + Kept(fates, w + 1)
  }

  ghost predicate Journaled(journal: seq<JournalOperation>, x: nat) {
    exists j :: 0 <= j < |journal| && journal[j].wireIndex == x
  }

  ghost predicate DistinctPositions(journal: seq<JournalOperation>) {
    forall i, j :: 0 <= i < j < |journal| ==> journal[i].wireIndex != journal[j].wireIndex
  }

  /** Every fate carries the identity of its prior record. */
  ghost predicate FatesOf(prior: seq<Record>, fates: Fates) {
    && |fates| == |prior| && DistinctIds(prior)
    && (forall x :: 0 <= x < |prior| && fates[x].Some? ==> fates[x].value.id == prior[x].id)
  }

  /** The journal copies prior records from position `w` on at their own indices. */
  ghost predicate CopiesPrior(prior: seq<Record>, w: nat, journal: seq<JournalOperation>) {
    && DistinctPositions(journal)
    && (forall j :: 0 <= j < |journal| ==>
          w <= journal[j].wireIndex < |prior| && journal[j] == Entry(prior[journal[j].wireIndex], journal[j].wireIndex))
  }

  /** From position `w` on, whatever was removed was journaled, and `ids` names what was journaled. */
  ghost predicate Covers(
    prior: seq<Record>, fates: Fates, w: nat, journal: seq<JournalOperation>, ids: set<OperationId>)
    requires |fates| == |prior|
  {
    && (forall j :: 0 <= j < |journal| ==> journal[j].operation in ids)
    && (forall x :: w <= x < |prior| && (prior[x].id in ids || fates[x].None?) ==> Journaled(journal, x))
  }

  function ExpectedAt(prior: seq<Record>, fates: Fates, x: nat): Survivor
    requires x < |prior| == |fates|
  {
    if fates[x].Some? then FromPolicy(fates[x].value) else FromJournal(Entry(prior[x], x))
  }

  function ExpectedFrom(prior: seq<Record>, fates: Fates, w: nat): seq<Survivor>
    requires |prior| == |fates|
    decreases |prior| - w
  {
    if |prior| <= w then [] else [ExpectedAt(prior, fates, w)] + ExpectedFrom(prior, fates, w + 1)
  }

  lemma {:induction false} NotKept(prior: seq<Record>, fates: Fates, w: nat, v: nat)
    requires FatesOf(prior, fates) && w < v <= |prior|
    ensures IndexOf(Kept(fates, v), prior[w].id).None?
    decreases |prior| - v
  {
    if v < |prior| {
      NotKept(prior, fates, w, v + 1);
      var tail := Kept(fates, v + 1);
      if fates[v].Some? {
        assert Kept(fates, v) == [fates[v].value] + tail;
        assert Kept(fates, v)[1..] == tail;
      } else {
        assert Kept(fates, v) == tail;
      }
    }
  }

  lemma RestCopies(prior: seq<Record>, w: nat, journal: seq<JournalOperation>, e: nat)
    requires CopiesPrior(prior, w, journal) && e < |journal| && journal[e].wireIndex == w
    ensures CopiesPrior(prior, w + 1, RemoveAt(journal, e))
    ensures AtWire(RemoveAt(journal, e), w).None?
  {
  }

  lemma RestJournaled(journal: seq<JournalOperation>, e: nat, x: nat)
    requires e < |journal| && journal[e].wireIndex != x && Journaled(journal, x)
    ensures Journaled(RemoveAt(journal, e), x)
  {
    var j :| 0 <= j < |journal| && journal[j].wireIndex == x;
    assert RemoveAt(journal, e)[if j < e then j else j - 1].wireIndex == x;
  }

  lemma RestCovers(
    prior: seq<Record>, fates: Fates, w: nat, journal: seq<JournalOperation>, ids: set<OperationId>, e: nat)
    requires |fates| == |prior| && w < |prior|
    requires CopiesPrior(prior, w, journal) && Covers(prior, fates, w, journal, ids)
    requires e < |journal| && journal[e].wireIndex == w
    ensures CopiesPrior(prior, w + 1, RemoveAt(journal, e))
    ensures Covers(prior, fates, w + 1, RemoveAt(journal, e), ids)
    ensures AtWire(RemoveAt(journal, e), w).None?
  {
    RestCopies(prior, w, journal, e);
    hide CopiesPrior, Journaled;
    forall x | w + 1 <= x < |prior| && (prior[x].id in ids || fates[x].None?)
      ensures Journaled(RemoveAt(journal, e), x)
    {
      RestJournaled(journal, e, x);
    }
  }

  lemma NextCovers(prior: seq<Record>, fates: Fates, w: nat, journal: seq<JournalOperation>, ids: set<OperationId>)
    requires FatesOf(prior, fates) && w < |prior|
    requires CopiesPrior(prior, w, journal) && Covers(prior, fates, w, journal, ids)
    requires AtWire(journal, w).None?
    ensures fates[w].Some? && fates[w].value.id !in ids
    ensures CopiesPrior(prior, w + 1, journal) && Covers(prior, fates, w + 1, journal, ids)
  {
    assert !Journaled(journal, w);
  }

  /** One round of the merge at a journaled position. */
  lemma TakeFront(
    prior: seq<Record>, fates: Fates, w: nat, journal: seq<JournalOperation>, ids: set<OperationId>, e: nat)
    requires FatesOf(prior, fates) && w < |prior|
    requires CopiesPrior(prior, w, journal) && Covers(prior, fates, w, journal, ids)
    requires AtWire(journal, w) == Some(e)
    ensures TakeAt(w, journal, Kept(fates, w)).survivors == [ExpectedAt(prior, fates, w)]
    ensures TakeAt(w, journal, Kept(fates, w)).journal == RemoveAt(journal, e)
    ensures TakeAt(w, journal, Kept(fates, w)).current == Kept(fates, w + 1)
    ensures TakeAt(w, journal, Kept(fates, w)).diverged
       <==> fates[w].Some? && fates[w].value.effect != prior[w].effect
  {
    var rest, tail := RemoveAt(journal, e), Kept(fates, w + 1);
    JournalFront(prior, fates, w, journal, e);
    RestCovers(prior, fates, w, journal, ids, e);
    assert TakeAt(w, rest, tail) == Taken([], rest, tail, false);
  }

  lemma MergeStep(
    w: nat, n: nat, journal: seq<JournalOperation>, current: seq<Record>, ids: set<OperationId>, s: Survivor)
    requires w < n && TakeAt(w, journal, current).survivors == [s]
    ensures var t := TakeAt(w, journal, current);
      MergeFrom(w, n, journal, current, ids).survivors == [s] + MergeFrom(w + 1, n, t.journal, t.current, ids).survivors
  {
  }

  lemma MergeStepKept(
    w: nat, n: nat, journal: seq<JournalOperation>, r: Record, tail: seq<Record>, ids: set<OperationId>)
    requires w < n && AtWire(journal, w).None? && r.id !in ids
    ensures MergeFrom(w, n, journal, [r] + tail, ids).survivors
         == [FromPolicy(r)] + MergeFrom(w + 1, n, journal, tail, ids).survivors
  {
    assert FirstUnjournaled([r] + tail, ids) == Some(0);
    assert RemoveAt([r] + tail, 0) == tail;
  }

  lemma MergeDone(prior: seq<Record>, fates: Fates, journal: seq<JournalOperation>, ids: set<OperationId>)
    requires |fates| == |prior| && CopiesPrior(prior, |prior|, journal)
    ensures MergeFrom(|prior|, |prior|, journal, Kept(fates, |prior|), ids).survivors == ExpectedFrom(prior, fates, |prior|)
  {
    hide CopiesPrior;
    if journal != [] { EntryBound(prior, |prior|, journal); }
  }

  lemma EntryBound(prior: seq<Record>, w: nat, journal: seq<JournalOperation>)
    requires journal != [] && CopiesPrior(prior, w, journal)
    ensures w < |prior|
  {
    assert w <= journal[0].wireIndex;
  }

  /** The merge rebuilds the prior list, position by position. */
  lemma {:induction false} MergeRebuildsPrior(
    prior: seq<Record>, fates: Fates, w: nat, journal: seq<JournalOperation>, ids: set<OperationId>)
    requires |fates| == |prior| && FatesOf(prior, fates) && w <= |prior|
    requires CopiesPrior(prior, w, journal) && Covers(prior, fates, w, journal, ids)
    ensures MergeFrom(w, |prior|, journal, Kept(fates, w), ids).survivors == ExpectedFrom(prior, fates, w)
    decreases |prior| - w
  {
    hide TakeAt, MergeFrom, ExpectedFrom, CopiesPrior, Covers, FatesOf;
    if w == |prior| {
      MergeDone(prior, fates, journal, ids);
      return;
    }
    ExpectedStep(prior, fates, w);
    var here := AtWire(journal, w);
    if here.Some? {
      TakeFront(prior, fates, w, journal, ids, here.value);
      MergeStep(w, |prior|, journal, Kept(fates, w), ids, ExpectedAt(prior, fates, w));
      RestCovers(prior, fates, w, journal, ids, here.value);
      MergeRebuildsPrior(prior, fates, w + 1, RemoveAt(journal, here.value), ids);
    } else {
      NextCovers(prior, fates, w, journal, ids);
      assert Kept(fates, w) == [fates[w].value] + Kept(fates, w + 1);
      MergeStepKept(w, |prior|, journal, fates[w].value, Kept(fates, w + 1), ids);
      MergeRebuildsPrior(prior, fates, w + 1, journal, ids);
    }
  }

  lemma ExpectedStep(prior: seq<Record>, fates: Fates, w: nat)
    requires |prior| == |fates| && w < |prior|
    ensures ExpectedFrom(prior, fates, w) == [ExpectedAt(prior, fates, w)] + ExpectedFrom(prior, fates, w + 1)
  {
  }

  /** The journal entry at `w` names prior position `w`, whose survivor can only be in front. */
  lemma JournalFront(prior: seq<Record>, fates: Fates, w: nat, journal: seq<JournalOperation>, e: nat)
    requires FatesOf(prior, fates) && w < |prior|
    requires CopiesPrior(prior, w, journal) && e < |journal| && journal[e].wireIndex == w
    ensures journal[e] == Entry(prior[w], w)
    ensures IndexOf(Kept(fates, w), journal[e].operation) == if fates[w].Some? then Some(0) else None
    ensures fates[w].Some? ==> Kept(fates, w)[0] == fates[w].value && RemoveAt(Kept(fates, w), 0) == Kept(fates, w + 1)
    ensures fates[w].None? ==> Kept(fates, w) == Kept(fates, w + 1)
  {
    var tail := Kept(fates, w + 1);
    if fates[w].Some? {
      assert Kept(fates, w) == [fates[w].value] + tail;
      assert RemoveAt(Kept(fates, w), 0) == tail;
    } else {
      assert Kept(fates, w) == tail;
      NotKept(prior, fates, w, w + 1);
    }
  }

  // --------------------------------------------------------------- how many positions there were

  /** Wire positions of the journal entries whose record is gone. */
  function MissingPositions(journal: seq<JournalOperation>, current: seq<Record>): set<nat> {
    set j | 0 <= j < |journal| && IndexOf(current, journal[j].operation).None? :: journal[j].wireIndex
  }

  function RemovedPositions(fates: Fates, w: nat): set<nat> {
    set x | w <= x < |fates| && fates[x].None?
  }

  lemma MissingStep(front: seq<JournalOperation>, last: JournalOperation, current: seq<Record>)
    ensures MissingPositions(front + [last], current)
         == MissingPositions(front, current)
            + (if IndexOf(current, last.operation).None? then {last.wireIndex} else {})
  {
    var journal := front + [last];
    var added := if IndexOf(current, last.operation).None? then {last.wireIndex} else {};
    forall x | x in MissingPositions(front, current) + added ensures x in MissingPositions(journal, current) {
      if x in MissingPositions(front, current) {
        var j :| 0 <= j < |front| && IndexOf(current, front[j].operation).None? && front[j].wireIndex == x;
        assert journal[j] == front[j];
      } else {
        assert journal[|front|] == last;
      }
    }
    forall x | x in MissingPositions(journal, current) ensures x in MissingPositions(front, current) + added {
      var j :| 0 <= j < |journal| && IndexOf(current, journal[j].operation).None? && journal[j].wireIndex == x;
      if j < |front| { assert front[j] == journal[j]; }
    }
  }

  lemma {:induction false} MissingCount(journal: seq<JournalOperation>, current: seq<Record>)
    requires DistinctPositions(journal)
    ensures Missing(journal, current) == |MissingPositions(journal, current)|
  {
    if journal != [] {
      var front, last := journal[..|journal| - 1], journal[|journal| - 1];
      MissingCount(front, current);
      assert front + [last] == journal;
      MissingStep(front, last, current);
      assert last.wireIndex !in MissingPositions(front, current);
    }
  }

  lemma {:induction false} KeptCount(fates: Fates, w: nat)
    requires w <= |fates|
    ensures |Kept(fates, w)| + |RemovedPositions(fates, w)| == |fates| - w
    decreases |fates| - w
  {
    if w == |fates| {
      assert RemovedPositions(fates, w) == {};
    } else {
      KeptCount(fates, w + 1);
      assert RemovedPositions(fates, w)
          == RemovedPositions(fates, w + 1) + (if fates[w].None? then {w} else {});
    }
  }

  lemma {:induction false} KeptFound(prior: seq<Record>, fates: Fates, w: nat, v: nat)
    requires FatesOf(prior, fates) && v <= w < |prior| && fates[w].Some?
    ensures IndexOf(Kept(fates, v), prior[w].id).Some?
    decreases w - v
  {
    if v < w {
      KeptFound(prior, fates, w, v + 1);
      var at := IndexOf(Kept(fates, v + 1), prior[w].id).value;
      var shift := if fates[v].Some? then 1 else 0;
      assert Kept(fates, v)[at + shift] == Kept(fates, v + 1)[at];
    } else {
      assert Kept(fates, v)[0].id == prior[w].id;
    }
  }

  lemma RemovedNotFound(prior: seq<Record>, fates: Fates, w: nat, v: nat)
    requires FatesOf(prior, fates) && v <= w < |prior| && fates[w].None?
    ensures IndexOf(Kept(fates, v), prior[w].id).None?
    decreases w - v
  {
    if v == w {
      NotKept(prior, fates, w, w + 1);
    } else {
      RemovedNotFound(prior, fates, w, v + 1);
      var tail := Kept(fates, v + 1);
      assert fates[v].Some? ==> Kept(fates, v) == [fates[v].value] + tail && Kept(fates, v)[1..] == tail;
      assert fates[v].None? ==> Kept(fates, v) == tail;
    }
  }

  /** Survivors plus missing journal entries count the prior list exactly. */
  lemma OriginalLength(prior: seq<Record>, fates: Fates, journal: seq<JournalOperation>)
    requires FatesOf(prior, fates) && CopiesPrior(prior, 0, journal)
    requires Covers(prior, fates, 0, journal, JournalIds(journal))
    ensures |Kept(fates, 0)| + Missing(journal, Kept(fates, 0)) == |prior|
  {
    hide Missing, JournalIds, Kept, MissingPositions, RemovedPositions;
    MissingCount(journal, Kept(fates, 0));
    KeptCount(fates, 0);
    SamePositions(prior, fates, journal);
  }

  lemma SamePositions(prior: seq<Record>, fates: Fates, journal: seq<JournalOperation>)
    requires FatesOf(prior, fates) && CopiesPrior(prior, 0, journal)
    requires Covers(prior, fates, 0, journal, JournalIds(journal))
    ensures MissingPositions(journal, Kept(fates, 0)) == RemovedPositions(fates, 0)
  {
    var current := Kept(fates, 0);
    hide Kept, JournalIds;
    forall x | x in RemovedPositions(fates, 0) ensures x in MissingPositions(journal, current) {
      assert Journaled(journal, x);
      var j :| 0 <= j < |journal| && journal[j].wireIndex == x;
      RemovedNotFound(prior, fates, x, 0);
    }
    forall x | x in MissingPositions(journal, current) ensures x in RemovedPositions(fates, 0) {
      var j :| 0 <= j < |journal| && IndexOf(current, journal[j].operation).None? && journal[j].wireIndex == x;
      if fates[x].Some? { KeptFound(prior, fates, x, 0); }
    }
  }

  /** Merging a journal of a prior list with the records that outlived it gives back that list:
      every prior operation once, at its original position, none invented. */
  lemma MergeRestoresWireOrder(prior: seq<Record>, fates: Fates, journal: seq<JournalOperation>)
    requires FatesOf(prior, fates) && CopiesPrior(prior, 0, journal)
    requires Covers(prior, fates, 0, journal, JournalIds(journal))
    ensures Merge(journal, Kept(fates, 0)).survivors == ExpectedFrom(prior, fates, 0)
  {
    OriginalLength(prior, fates, journal);
    MergeRebuildsPrior(prior, fates, 0, journal, JournalIds(journal));
  }

  // --------------------------------------------------------------- nothing lost, whatever the journal

  function PolicyOne(v: Survivor): multiset<Record> {
    if v.FromPolicy? then multiset{v.record} else multiset{}
  }

  function PolicyBag(survivors: seq<Survivor>): multiset<Record> {
    if survivors == [] then multiset{} else PolicyOne(survivors[0]) + PolicyBag(survivors[1..])
  }

  lemma {:induction false} PolicyBagConcat(a: seq<Survivor>, b: seq<Survivor>)
    ensures PolicyBag(a + b) == PolicyBag(a) + PolicyBag(b)
  {
    hide PolicyOne;
    if a == [] {
      assert a + b == b;
    } else {
      PolicyBagConcat(a[1..], b);
      assert (a + b)[0] == a[0] && (a + b)[1..] == a[1..] + b;
      assert PolicyBag(a + b) == PolicyOne(a[0]) + PolicyBag(a[1..] + b);
    }
  }

  lemma BagRemove<T>(s: seq<T>, i: nat)
    requires i < |s|
    ensures multiset(RemoveAt(s, i)) + multiset{s[i]} == multiset(s)
  {
    assert s == s[..i] + [s[i]] + s[i + 1..];
  }

  lemma InRemoved<T>(s: seq<T>, i: nat, x: T)
    requires i < |s| && x in s
    ensures x == s[i] || x in RemoveAt(s, i)
  {
    var j :| 0 <= j < |s| && s[j] == x;
    if j != i { assert RemoveAt(s, i)[if j < i then j else j - 1] == x; }
  }

  lemma RemovedIn<T>(s: seq<T>, i: nat, x: T)
    requires i < |s| && x in RemoveAt(s, i)
    ensures x in s
  {
    var j :| 0 <= j < |s| - 1 && RemoveAt(s, i)[j] == x;
    assert s[if j < i then j else j + 1] == x;
  }

  ghost predicate HasRecord(current: seq<Record>, id: OperationId) {
    exists r :: r in current && r.id == id
  }

  /** Taking the first entry of a position, and the rest after it. */
  lemma TakeAtNext(w: nat, journal: seq<JournalOperation>, current: seq<Record>, i: nat, live: Option<nat>)
    requires AtWire(journal, w) == Some(i) && i < |journal| && live == IndexOf(current, journal[i].operation)
    ensures live.Some? ==> live.value < |current|
    ensures var rest := TakeAt(w, RemoveAt(journal, i), if live.Some? then RemoveAt(current, live.value) else current);
      var first := if live.Some? then FromPolicy(current[live.value]) else FromJournal(journal[i]);
      var t := TakeAt(w, journal, current);
      t.survivors == [first] + rest.survivors && t.current == rest.current && t.journal == rest.journal
  {
    hide RemoveAt;
  }

  lemma PolicyBagFront(first: Survivor, rest: seq<Survivor>)
    ensures PolicyBag([first] + rest) == PolicyOne(first) + PolicyBag(rest)
  {
    hide PolicyOne;
    assert ([first] + rest)[0] == first && ([first] + rest)[1..] == rest;
  }

  lemma {:induction false} TakeAtKeepsPolicy(w: nat, journal: seq<JournalOperation>, current: seq<Record>)
    ensures PolicyBag(TakeAt(w, journal, current).survivors) + multiset(TakeAt(w, journal, current).current)
         == multiset(current)
    decreases |journal|
  {
    var index := AtWire(journal, w);
    if index.None? {
      assert TakeAt(w, journal, current) == Taken([], journal, current, false);
    } else {
      hide TakeAt, PolicyBag, RemoveAt, IndexOf, AtWire;
      var live := IndexOf(current, journal[index.value].operation);
      TakeAtNext(w, journal, current, index.value, live);
      var tail := if live.Some? then RemoveAt(current, live.value) else current;
      var first := if live.Some? then FromPolicy(current[live.value]) else FromJournal(journal[index.value]);
      RemovedShorter(journal, index.value);
      TakeAtKeepsPolicy(w, RemoveAt(journal, index.value), tail);
      PolicyBagFront(first, TakeAt(w, RemoveAt(journal, index.value), tail).survivors);
      BagTaken(current, live, first);
      hide PolicyOne;
      BagShift(PolicyOne(first), PolicyBag(TakeAt(w, RemoveAt(journal, index.value), tail).survivors),
        multiset(TakeAt(w, RemoveAt(journal, index.value), tail).current), multiset(tail), multiset(current));
    }
  }

  lemma BagTaken(current: seq<Record>, live: Option<nat>, first: Survivor)
    requires live.Some? ==> live.value < |current| && first == FromPolicy(current[live.value])
    requires live.None? ==> first.FromJournal?
    ensures multiset(if live.Some? then RemoveAt(current, live.value) else current) + PolicyOne(first) == multiset(current)
  {
    if live.Some? { BagRemove(current, live.value); }
  }

  lemma BagShift<T>(a: multiset<T>, b: multiset<T>, c: multiset<T>, rest: multiset<T>, all: multiset<T>)
    requires b + c == rest && rest + a == all
    ensures a + b + c == all
  {
  }

  lemma RemovedShorter<T>(s: seq<T>, i: nat)
    requires i < |s|
    ensures |RemoveAt(s, i)| == |s| - 1
  {
  }

  lemma {:induction false} TakeAtKeepsJournal(
    w: nat, journal: seq<JournalOperation>, current: seq<Record>, e: JournalOperation)
    requires e in journal
    ensures var t := TakeAt(w, journal, current);
      e in t.journal || FromJournal(e) in t.survivors || HasRecord(current, e.operation)
    ensures forall r :: r in TakeAt(w, journal, current).current ==> r in current
    decreases |journal|
  {
    var index := AtWire(journal, w);
    if index.Some? {
      var i := index.value;
      var live := IndexOf(current, journal[i].operation);
      var tail := if live.Some? then RemoveAt(current, live.value) else current;
      forall r | r in tail ensures r in current {
        if live.Some? { RemovedIn(current, live.value, r); }
      }
      if live.Some? { assert current[live.value] in current; }
      TakeAtCurrent(w, RemoveAt(journal, i), tail);
      InRemoved(journal, i, e);
      if e in RemoveAt(journal, i) {
        TakeAtKeepsJournal(w, RemoveAt(journal, i), tail, e);
      }
    }
  }

  lemma {:induction false} TakeAtCurrent(w: nat, journal: seq<JournalOperation>, current: seq<Record>)
    ensures forall r :: r in TakeAt(w, journal, current).current ==> r in current
    decreases |journal|
  {
    var index := AtWire(journal, w);
    if index.Some? {
      var live := IndexOf(current, journal[index.value].operation);
      var tail := if live.Some? then RemoveAt(current, live.value) else current;
      TakeAtCurrent(w, RemoveAt(journal, index.value), tail);
      forall r | r in tail ensures r in current {
        if live.Some? { RemovedIn(current, live.value, r); }
      }
    }
  }

  lemma {:induction false} LeftoverBag(journal: seq<JournalOperation>, current: seq<Record>)
    ensures PolicyBag(Leftover(journal, current)) == multiset(current)
    decreases |current|, |journal|
  {
    if current != [] {
      LeftoverBag(journal, current[1..]);
      assert Leftover(journal, current)[1..] == Leftover(journal, current[1..]);
      assert current == [current[0]] + current[1..];
    } else if journal != [] {
      LeftoverBag(journal[1..], current);
      assert Leftover(journal, current)[1..] == Leftover(journal[1..], current);
    }
  }

  /** Whatever the journal says, even wrong or repeated wire indices, every surviving record
      comes out exactly once. */
  lemma {:induction false} MergeKeepsPolicy(
    w: nat, n: nat, journal: seq<JournalOperation>, current: seq<Record>, ids: set<OperationId>)
    ensures PolicyBag(MergeFrom(w, n, journal, current, ids).survivors) == multiset(current)
    decreases n - w
  {
    if n <= w {
      LeftoverBag(journal, current);
    } else {
      var t := TakeAt(w, journal, current);
      if t.survivors != [] {
        TakeAtKeepsPolicy(w, journal, current);
        MergeKeepsPolicy(w + 1, n, t.journal, t.current, ids);
        PolicyBagConcat(t.survivors, MergeFrom(w + 1, n, t.journal, t.current, ids).survivors);
      } else {
        var next := FirstUnjournaled(current, ids);
        if next.None? {
          MergeKeepsPolicy(w + 1, n, journal, current, ids);
        } else {
          var tail := RemoveAt(current, next.value);
          MergeKeepsPolicy(w + 1, n, journal, tail, ids);
          var rest := MergeFrom(w + 1, n, journal, tail, ids).survivors;
          PolicyBagConcat([FromPolicy(current[next.value])], rest);
          BagRemove(current, next.value);
        }
      }
    }
  }

  /** ... and every journal entry without a surviving record comes out too. */
  lemma {:induction false} MergeKeepsJournal(
    w: nat, n: nat, journal: seq<JournalOperation>, current: seq<Record>, ids: set<OperationId>, e: JournalOperation)
    requires e in journal
    ensures FromJournal(e) in MergeFrom(w, n, journal, current, ids).survivors || HasRecord(current, e.operation)
    decreases n - w
  {
    if n <= w {
      var j :| 0 <= j < |journal| && journal[j] == e;
      assert Leftover(journal, current)[|current| + j] == FromJournal(e);
    } else {
      var t := TakeAt(w, journal, current);
      TakeAtKeepsJournal(w, journal, current, e);
      if t.survivors != [] {
        if e in t.journal { MergeKeepsJournal(w + 1, n, t.journal, t.current, ids, e); }
      } else {
        var next := FirstUnjournaled(current, ids);
        if next.None? {
          MergeKeepsJournal(w + 1, n, journal, current, ids, e);
        } else {
          MergeKeepsJournal(w + 1, n, journal, RemoveAt(current, next.value), ids, e);
          forall r | r in RemoveAt(current, next.value) ensures r in current {
            RemovedIn(current, next.value, r);
          }
        }
      }
    }
  }

  // --------------------------------------------------------------- handing frames back

  datatype Restoring = Restoring(
    writes: seq<DiscardedWrite>, operations: seq<RecoveredOperation>, ledger: LedgerState, diverged: bool)

  function WriteIndex(writes: seq<DiscardedWrite>, operation: OperationId, effect: EffectId): (r: Option<nat>)
    ensures r.Some? ==> r.value < |writes|
    ensures r.Some? ==> writes[r.value].operation == operation && writes[r.value].effect == effect
    ensures r.Some? ==> forall j :: 0 <= j < r.value ==> !(writes[j].operation == operation && writes[j].effect == effect)
    ensures r.None? ==> forall j :: 0 <= j < |writes| ==> !(writes[j].operation == operation && writes[j].effect == effect)
  {
    if writes == [] then None
    else if writes[0].operation == operation && writes[0].effect == effect then Some(0)
    else
      var rest := WriteIndex(writes[1..], operation, effect);
      if rest.Some? then Some(rest.value + 1) else None
  }

  function Rejoined(operation: OperationId, delivery: Delivery, write: Option<DiscardedWrite>): RecoveredOperation {
    if write.None? then RecoveredOperation(operation, delivery, None)
    else RecoveredOperation(operation, Weaken(delivery, write.value.delivery), Some(write.value.frame))
  }

  function Restore(s: Restoring, operation: OperationId, effect: EffectId, delivery: Delivery, writeHeld: bool,
      finished: bool): Restoring {
    var index := WriteIndex(s.writes, operation, effect);
    var write := if index.Some? then Some(s.writes[index.value]) else None;
    Restoring(
      if index.Some? then RemoveAt(s.writes, index.value) else s.writes,
      if finished then s.operations else s.operations + [Rejoined(operation, delivery, write)],
      s.ledger,
      s.diverged || writeHeld != write.Some?)
  }

  /** A surviving record releases its capacity; a journaled tombstone is left alone. */
  function RestoreOne(s: Restoring, v: Survivor): Restoring {
    match v
    case FromPolicy(r) =>
      Restore(s, r.id, r.effect, r.delivery, r.writeHeld, r.phase.Terminal?)
        .(ledger := Release(s.ledger, r.reservation, r.writeHeld, false))
    case FromJournal(e) =>
      if e.phase.Terminal? then s
      else Restore(s, e.operation, e.effect, e.delivery, e.writeHeld, false)
  }

  function RestoreAll(s: Restoring, survivors: seq<Survivor>): Restoring {
    if survivors == [] then s
    else RestoreOne(RestoreAll(s, survivors[..|survivors| - 1]), survivors[|survivors| - 1])
  }

  function RecoveredIds(operations: seq<RecoveredOperation>): (ids: seq<OperationId>)
    ensures |ids| == |operations|
    ensures forall i :: 0 <= i < |operations| ==> ids[i] == operations[i].operation
  {
    seq(|operations|, i requires 0 <= i < |operations| => operations[i].operation)
  }

  function UnfinishedIds(survivors: seq<Survivor>): seq<OperationId> {
    if survivors == [] then []
    else
      var last := survivors[|survivors| - 1];
      UnfinishedIds(survivors[..|survivors| - 1]) + (if last.Finished() then [] else [last.Id()])
  }

  /** Exactly the unfinished survivors are recovered, in order. */
  lemma {:induction false} RestoredInOrder(s: Restoring, survivors: seq<Survivor>)
    ensures RecoveredIds(RestoreAll(s, survivors).operations) == RecoveredIds(s.operations) + UnfinishedIds(survivors)
  {
    if survivors != [] {
      RestoredInOrder(s, survivors[..|survivors| - 1]);
    }
  }

  /** A frame rejoined its own operation, is reported unmatched, or belonged to a tombstone that
      was still pending. */
  ghost predicate Homed(x: DiscardedWrite, out: Restoring, survivors: seq<Survivor>) {
    || x in out.writes
    || (exists o :: o in out.operations && o.operation == x.operation && o.frame == Some(x.frame))
    || (exists v :: v in survivors && v.FromPolicy? && v.Finished()
          && v.record.id == x.operation && v.record.effect == x.effect)
  }

  /** A recovered frame is one the writer held for that very operation, and certainty it lost
      in the writer stays lost. */
  ghost predicate Owned(o: RecoveredOperation, writes: seq<DiscardedWrite>) {
    o.frame.Some? ==> exists x :: x in writes && x.operation == o.operation && x.frame == o.frame.value
                        && (x.delivery.PossiblySent? ==> o.delivery.PossiblySent?)
  }

  lemma RestoreOneHomes(s: Restoring, v: Survivor, x: DiscardedWrite, survivors: seq<Survivor>)
    requires Homed(x, s, survivors)
    ensures Homed(x, RestoreOne(s, v), survivors + [v])
  {
    var out := RestoreOne(s, v);
    assert v in survivors + [v];
    if x in s.writes {
      var id, effect := v.Id(), if v.FromPolicy? then v.record.effect else v.entry.effect;
      var index := WriteIndex(s.writes, id, effect);
      if index.Some? && x !in out.writes {
        InRemoved(s.writes, index.value, x);
        if !v.Finished() {
          assert out.operations[|out.operations| - 1].frame == Some(x.frame);
          assert out.operations[|out.operations| - 1] in out.operations;
        }
      }
    } else if exists o :: o in s.operations && o.operation == x.operation && o.frame == Some(x.frame) {
      var o :| o in s.operations && o.operation == x.operation && o.frame == Some(x.frame);
      assert o in out.operations;
    } else {
      var u :| u in survivors && u.FromPolicy? && u.Finished()
        && u.record.id == x.operation && u.record.effect == x.effect;
      assert u in survivors + [v];
    }
  }

  lemma {:induction false} EveryFrameHomed(s: Restoring, survivors: seq<Survivor>, x: DiscardedWrite)
    requires x in s.writes
    ensures Homed(x, RestoreAll(s, survivors), survivors)
  {
    if survivors != [] {
      var front, last := survivors[..|survivors| - 1], survivors[|survivors| - 1];
      EveryFrameHomed(s, front, x);
      RestoreOneHomes(RestoreAll(s, front), last, x, front);
      assert front + [last] == survivors;
    }
  }

  lemma RestoreOneOwns(s: Restoring, v: Survivor, writes: seq<DiscardedWrite>)
    requires forall x :: x in s.writes ==> x in writes
    requires forall o :: o in s.operations ==> Owned(o, writes)
    ensures forall x :: x in RestoreOne(s, v).writes ==> x in writes
    ensures forall o :: o in RestoreOne(s, v).operations ==> Owned(o, writes)
  {
    var out := RestoreOne(s, v);
    var id, effect := v.Id(), if v.FromPolicy? then v.record.effect else v.entry.effect;
    var index := WriteIndex(s.writes, id, effect);
    forall x | x in out.writes ensures x in writes {
      if x !in s.writes { RemovedIn(s.writes, index.value, x); }
    }
    forall o | o in out.operations ensures Owned(o, writes) {
      if o !in s.operations && o.frame.Some? {
        assert s.writes[index.value] in s.writes;
      }
    }
  }

  /** No frame is given to another operation, and none is invented. */
  lemma {:induction false} NoFrameMisplaced(s: Restoring, survivors: seq<Survivor>)
    requires s.operations == []
    ensures forall x :: x in RestoreAll(s, survivors).writes ==> x in s.writes
    ensures forall o :: o in RestoreAll(s, survivors).operations ==> Owned(o, s.writes)
  {
    if survivors != [] {
      NoFrameMisplaced(s, survivors[..|survivors| - 1]);
      RestoreOneOwns(RestoreAll(s, survivors[..|survivors| - 1]), survivors[|survivors| - 1], s.writes);
    }
  }
}
