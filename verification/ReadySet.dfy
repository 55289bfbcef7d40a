/** The ready queue of a connection set: a bounded round robin over generation-fenced slots. What a
    slot does in its turn, and whether the selector fails, is up to an arbitrary environment. */
module ReadySet {
  import opened Primitives

  /** A resource token; never issued twice. */
  type Resource = nat

  // --------------------------------------------------------------- the queue by itself

  datatype QueueStep = Push(resource: Resource) | Pop | Purge(resource: Resource) | Clear

  function Without(q: seq<Resource>, r: Resource): seq<Resource> {
    if q == [] then [] else Without(q[..|q| - 1], r) + (if q[|q| - 1] == r then [] else [q[|q| - 1]])
  }

  function After(q: seq<Resource>, s: QueueStep): seq<Resource> {
    match s
    case Push(r) => q + [r]
    case Pop => if q == [] then [] else q[1..]
    case Purge(r) => Without(q, r)
    case Clear => []
  }

  function AfterAll(q: seq<Resource>, steps: seq<QueueStep>): seq<Resource> {
    if steps == [] then q else After(AfterAll(q, steps[..|steps| - 1]), steps[|steps| - 1])
  }

  /** What was taken from the front, in order. */
  function Served(q: seq<Resource>, steps: seq<QueueStep>): seq<Resource> {
    if steps == [] then []
    else
      var before := AfterAll(q, steps[..|steps| - 1]);
      Served(q, steps[..|steps| - 1]) + (if steps[|steps| - 1].Pop? && before != [] then [before[0]] else [])
  }

  lemma {:induction false} AfterConcat(q: seq<Resource>, a: seq<QueueStep>, b: seq<QueueStep>)
    ensures AfterAll(q, a + b) == AfterAll(AfterAll(q, a), b)
    ensures Served(q, a + b) == Served(q, a) + Served(AfterAll(q, a), b)
  {
    if b == [] {
      assert a + b == a;
    } else {
      AfterConcat(q, a, b[..|b| - 1]);
      assert (a + b)[..|a + b| - 1] == a + b[..|b| - 1] && (a + b)[|a + b| - 1] == b[|b| - 1];
    }
  }

  ghost predicate Apart(q: seq<Resource>) {
    forall i, j :: 0 <= i < j < |q| ==> q[i] != q[j]
  }

  /** Only what is not queued is pushed. */
  ghost predicate Orderly(q: seq<Resource>, steps: seq<QueueStep>) {
    forall i :: 0 <= i < |steps| && steps[i].Push? ==> steps[i].resource !in AfterAll(q, steps[..i])
  }

  /** Neither the entry nor the whole queue was removed. */
  ghost predicate Spares(steps: seq<QueueStep>, r: Resource) {
    forall i :: 0 <= i < |steps| ==> steps[i] != Purge(r) && steps[i] != Clear
  }

  /** Nobody was removed at all. */
  ghost predicate Gentle(steps: seq<QueueStep>) {
    forall i :: 0 <= i < |steps| ==> steps[i].Push? || steps[i].Pop?
  }

  lemma {:induction false} WithoutMembers(q: seq<Resource>, r: Resource)
    ensures forall x :: x in Without(q, r) <==> x in q && x != r
  {
    if q != [] {
      var front := q[..|q| - 1];
      WithoutMembers(front, r);
      assert q == front + [q[|q| - 1]];
    }
  }

  lemma {:induction false} WithoutApart(q: seq<Resource>, r: Resource)
    requires Apart(q)
    ensures Apart(Without(q, r))
  {
    if q != [] {
      var front, last := q[..|q| - 1], q[|q| - 1];
      WithoutApart(front, r);
      WithoutMembers(front, r);
      assert forall i :: 0 <= i < |front| ==> q[i] != q[|q| - 1];
      assert last !in front;
    }
  }

  lemma OrderlyFront(q: seq<Resource>, steps: seq<QueueStep>)
    requires Orderly(q, steps) && steps != []
    ensures Orderly(q, steps[..|steps| - 1])
    ensures var last := steps[|steps| - 1]; last.Push? ==> last.resource !in AfterAll(q, steps[..|steps| - 1])
  {
    var front := steps[..|steps| - 1];
    forall i | 0 <= i < |front| && front[i].Push? ensures front[i].resource !in AfterAll(q, front[..i]) {
      assert front[..i] == steps[..i];
    }
  }

  lemma {:induction false} StaysApart(q: seq<Resource>, steps: seq<QueueStep>)
    requires Apart(q) && Orderly(q, steps)
    ensures Apart(AfterAll(q, steps))
  {
    if steps != [] {
      hide AfterAll, Orderly;
      var front, last := steps[..|steps| - 1], steps[|steps| - 1];
      OrderlyFront(q, steps);
      StaysApart(q, front);
      LastStep(q, steps);
      if last.Purge? { WithoutApart(AfterAll(q, front), last.resource); }
    }
  }

  lemma LastStep(q: seq<Resource>, steps: seq<QueueStep>)
    requires steps != []
    ensures AfterAll(q, steps) == After(AfterAll(q, steps[..|steps| - 1]), steps[|steps| - 1])
  {
  }

  lemma OrderlyRest(q: seq<Resource>, a: seq<QueueStep>, b: seq<QueueStep>)
    requires Orderly(q, a + b)
    ensures Orderly(AfterAll(q, a), b)
  {
    hide AfterAll;
    forall i | 0 <= i < |b| && b[i].Push? ensures b[i].resource !in AfterAll(AfterAll(q, a), b[..i]) {
      AfterConcat(q, a, b[..i]);
      assert (a + b)[..|a| + i] == a + b[..i] && (a + b)[|a| + i] == b[i];
    }
  }

  // --------------------------------------------------------------- who is served, exactly

  /** What waits ahead of an entry. */
  function Ahead(q: seq<Resource>, x: Resource): seq<Resource> {
    if q == [] || q[0] == x then [] else [q[0]] + Ahead(q[1..], x)
  }

  lemma {:induction false} AheadOf(q: seq<Resource>, at: nat)
    requires Apart(q) && at < |q|
    ensures Ahead(q, q[at]) == q[..at]
  {
    if at > 0 {
      assert Apart(q[1..]) && q[0] != q[at];
      AheadOf(q[1..], at - 1);
      assert q[..at] == [q[0]] + q[1..][..at - 1];
    }
  }

  /** How many were removed from ahead of `x` while it waited. */
  function Overtaken(q: seq<Resource>, steps: seq<QueueStep>, x: Resource): nat {
    if steps == [] then 0
    else
      var front, last := steps[..|steps| - 1], steps[|steps| - 1];
      var before := AfterAll(q, front);
      Overtaken(q, front, x) + (if last.Purge? && x in before && last.resource in Ahead(before, x) then 1 else 0)
  }

  /** Removing an entry moves exactly those behind it one place forward. */
  lemma {:induction false} WithoutPlace(q: seq<Resource>, r: Resource, p: nat) returns (at: nat)
    requires Apart(q) && p < |q| && q[p] != r
    ensures at == p - (if r in q[..p] then 1 else 0)
    ensures at < |Without(q, r)| && Without(q, r)[at] == q[p]
  {
    var front := q[..|q| - 1];
    if p == |q| - 1 {
      WithoutSize(front, r);
      assert q[..p] == front;
      at := |Without(front, r)|;
    } else {
      at := WithoutPlace(front, r, p);
      assert front[..p] == q[..p];
    }
  }

  lemma {:induction false} WithoutSize(q: seq<Resource>, r: Resource)
    requires Apart(q)
    ensures |Without(q, r)| == |q| - (if r in q then 1 else 0)
  {
    if q != [] {
      var front, last := q[..|q| - 1], q[|q| - 1];
      WithoutSize(front, r);
      assert forall i :: 0 <= i < |front| ==> q[i] != q[|q| - 1];
      assert q == front + [last] && last !in front;
    }
  }

  /** An entry is served, or it has moved forward by exactly the places served and removed before it. */
  lemma {:induction false} Advances(q: seq<Resource>, steps: seq<QueueStep>, p: nat) returns (at: nat)
    requires Apart(q) && Orderly(q, steps) && p < |q| && Spares(steps, q[p])
    ensures q[p] in Served(q, steps) ==> p < |Served(q, steps)| + Overtaken(q, steps, q[p])
    ensures q[p] !in Served(q, steps) ==> at < |AfterAll(q, steps)| && AfterAll(q, steps)[at] == q[p]
    ensures q[p] !in Served(q, steps) ==> at + |Served(q, steps)| + Overtaken(q, steps, q[p]) == p
  {
    at := p;
    if steps != [] {
      var front, last := steps[..|steps| - 1], steps[|steps| - 1];
      OrderlyFront(q, steps);
      at := Advances(q, front, p);
      StaysApart(q, front);
      assert last != Purge(q[p]) && last != Clear;
      at := AdvancesOnce(AfterAll(q, front), last, q[p], at, q[p] in Served(q, front));
    }
  }

  /** One step of the queue, seen by one of its entries. */
  lemma AdvancesOnce(q: seq<Resource>, s: QueueStep, x: Resource, p: nat, gone: bool) returns (at: nat)
    requires Apart(q) && s != Purge(x) && s != Clear && (!gone ==> p < |q| && q[p] == x)
    ensures !gone && !(s.Pop? && p == 0) ==> at < |After(q, s)| && After(q, s)[at] == x
    ensures !gone && !(s.Pop? && p == 0) ==>
      at == p - (if s.Pop? || (s.Purge? && x in q && s.resource in Ahead(q, x)) then 1 else 0)
  {
    at := p;
    if !gone {
      AheadOf(q, p);
      if s.Pop? {
        at := if p == 0 then 0 else p - 1;
      } else if s.Purge? {
        at := WithoutPlace(q, s.resource, p);
      }
    }
  }

  /** An entry is served exactly when its place lies below the number served and the number removed
      ahead of it, unless it is removed itself. */
  lemma ServedExactly(q: seq<Resource>, steps: seq<QueueStep>, p: nat)
    requires Apart(q) && Orderly(q, steps) && p < |q| && Spares(steps, q[p])
    ensures q[p] in Served(q, steps) <==> p < |Served(q, steps)| + Overtaken(q, steps, q[p])
    ensures q[p] in Served(q, steps) || q[p] in AfterAll(q, steps)
  {
    hide Served, AfterAll, Overtaken;
    var at := Advances(q, steps, p);
  }

  lemma {:induction false} NobodyOvertaken(q: seq<Resource>, steps: seq<QueueStep>, x: Resource)
    requires Gentle(steps)
    ensures Overtaken(q, steps, x) == 0
  {
    if steps != [] {
      assert steps[|steps| - 1].Push? || steps[|steps| - 1].Pop?;
      NobodyOvertaken(q, steps[..|steps| - 1], x);
    }
  }

  /** Without removals an entry is served exactly when its place lies below the number served. */
  lemma ServedGently(q: seq<Resource>, steps: seq<QueueStep>, p: nat)
    requires Apart(q) && Orderly(q, steps) && Gentle(steps) && p < |q|
    ensures q[p] in Served(q, steps) <==> p < |Served(q, steps)|
    ensures q[p] in Served(q, steps) || q[p] in AfterAll(q, steps)
  {
    hide Served, AfterAll, Overtaken;
    NobodyOvertaken(q, steps, q[p]);
    ServedExactly(q, steps, p);
  }

  // --------------------------------------------------------------- turn after turn

  /** One full turn of a set that serves `k` at a time: `k` were served, or none were left. */
  ghost predicate FullTurn(q: seq<Resource>, steps: seq<QueueStep>, k: nat) {
    k <= |Served(q, steps)| || AfterAll(q, steps) == []
  }

  function Joined(turns: seq<seq<QueueStep>>): seq<QueueStep> {
    if turns == [] then [] else Joined(turns[..|turns| - 1]) + turns[|turns| - 1]
  }

  ghost predicate FullTurns(q: seq<Resource>, turns: seq<seq<QueueStep>>, k: nat) {
    turns == [] ||
    (FullTurns(q, turns[..|turns| - 1], k)
      && FullTurn(AfterAll(q, Joined(turns[..|turns| - 1])), turns[|turns| - 1], k))
  }

  lemma SparesParts(a: seq<QueueStep>, b: seq<QueueStep>, r: Resource)
    requires Spares(a + b, r)
    ensures Spares(a, r) && Spares(b, r)
  {
    forall i | 0 <= i < |a| ensures a[i] != Purge(r) && a[i] != Clear {
      assert (a + b)[i] == a[i];
    }
    forall i | 0 <= i < |b| ensures b[i] != Purge(r) && b[i] != Clear {
      assert (a + b)[|a| + i] == b[i];
    }
  }

  lemma OrderlyPart(q: seq<Resource>, a: seq<QueueStep>, b: seq<QueueStep>)
    requires Orderly(q, a + b)
    ensures Orderly(q, a)
  {
    hide AfterAll;
    forall i | 0 <= i < |a| && a[i].Push? ensures a[i].resource !in AfterAll(q, a[..i]) {
      assert (a + b)[..i] == a[..i] && (a + b)[i] == a[i];
    }
  }

  lemma OneTurnServes(q: seq<Resource>, before: seq<QueueStep>, turn: seq<QueueStep>, k: nat, p: nat)
    requires Apart(q) && Orderly(q, before + turn) && p < |q| && Spares(before + turn, q[p])
    requires FullTurn(AfterAll(q, before), turn, k)
    ensures q[p] in Served(q, before + turn) || |Served(q, before)| + k <= |Served(q, before + turn)|
    ensures q[p] in Served(q, before) ==> q[p] in Served(q, before + turn)
  {
    hide Served, AfterAll, Spares, Orderly, Overtaken;
    AfterConcat(q, before, turn);
    ServedExactly(q, before + turn, p);
  }

  /** Whatever else happens in between, `n` full turns serve at least `k * n` places, or everybody. */
  lemma {:induction false} TurnsServe(q: seq<Resource>, turns: seq<seq<QueueStep>>, k: nat, p: nat)
    requires Apart(q) && Orderly(q, Joined(turns)) && p < |q| && Spares(Joined(turns), q[p])
    requires FullTurns(q, turns, k)
    ensures k * |turns| <= |Served(q, Joined(turns))| || q[p] in Served(q, Joined(turns))
  {
    hide Served, AfterAll, Spares, Orderly, Overtaken, FullTurn, Apart;
    if turns != [] {
      var front, last := turns[..|turns| - 1], turns[|turns| - 1];
      OrderlyPart(q, Joined(front), last);
      SparesParts(Joined(front), last, q[p]);
      TurnsServe(q, front, k, p);
      OneTurnServes(q, Joined(front), last, k, p);
      OneMoreTurn(k, |front|);
    }
  }

  lemma OneMoreTurn(k: nat, n: nat)
    ensures k * (n + 1) == k * n + k
  {
  }

  /** Round robin: an entry at position `p` is served within any `n` full turns with `p < k * n`,
      unless it is removed or the selector fails. */
  lemma ServedInTime(q: seq<Resource>, turns: seq<seq<QueueStep>>, k: nat, p: nat)
    requires Apart(q) && Orderly(q, Joined(turns)) && p < |q| && Spares(Joined(turns), q[p])
    requires FullTurns(q, turns, k) && p < k * |turns|
    ensures q[p] in Served(q, Joined(turns))
  {
    hide Served, AfterAll, Spares, Orderly, Overtaken, FullTurns, Joined;
    TurnsServe(q, turns, k, p);
    ServedExactly(q, Joined(turns), p);
  }

  // --------------------------------------------------------------- slots as the set sees them

  /** One connection: its transport, whether it can be released, whether its owner failed, whether its
      epoch is over, and whether it is queued. */
  datatype Entry = Entry(transport: bool, releaseReady: bool, failed: bool, closed: bool, queued: bool)

  datatype SetError = SelectorFailed | SlotFailed | OwnerGone | StaleConnection | OwnerRunning | StillLive

  /** What the outside decides whenever the set acts on one connection or on its selector. */
  datatype Answer = Answer(
    broken: bool, releaseReady: bool, saturated: bool, runnable: bool, completed: bool,
    deregistered: bool, contract: bool, announced: bool,
    changed: bool, registered: bool, bounded: bool,
    polled: bool, pollSaturated: bool)

  function Failing(e: Entry): Entry {
    if e.failed then e else e.(failed := true, releaseReady := true)
  }

  /** A slot that was driven or commanded: a failed one refuses, and a failure is final. */
  function Driven(e: Entry, a: Answer): Entry {
    if e.failed then e else if a.broken then Failing(e) else e.(releaseReady := a.releaseReady)
  }

  /** Releases a transport whose closure is ready to settle. A deregistration failure is the
      selector's; a transport that breaks its memory contract fails its own slot, and so does a closure
      that can no longer be announced. */
  function Settled(e: Entry, a: Answer): (Entry, Result<nat, SetError>) {
    var e := if e.transport && a.completed && !e.failed then e.(releaseReady := true) else e;
    if !e.releaseReady then (e, Success(0))
    else if e.transport && !a.deregistered then (Failing(e), Failure(SelectorFailed))
    else if e.transport && !a.contract then (Failing(e.(transport := false)), Failure(SlotFailed))
    else (e.(transport := false, releaseReady := false, closed := true, failed := e.failed || !a.announced), Success(1))
  }

  /** Brings the selector's interest up to date. */
  function Synced(e: Entry, a: Answer): (Entry, Result<nat, SetError>) {
    if !e.transport || !a.changed then (e, Success(0))
    else if !a.registered then (Failing(e), Failure(SelectorFailed))
    else (if a.bounded then e else Failing(e), Success(1))
  }

  datatype SlotTurn = SlotTurn(entry: Entry, result: Result<nat, SetError>, runnable: bool)

  /** One slot's whole turn. */
  function TurnOf(e: Entry, a: Answer): SlotTurn {
    var driven := Driven(e, a);
    var (settled, released) := Settled(driven, a);
    if released.Failure? then SlotTurn(settled, released, false)
    else
      var (synced, interest) := Synced(settled, a);
      if interest.Failure? then SlotTurn(synced, interest, false)
      else
        var saturated := !e.failed && !a.broken && a.saturated;
        SlotTurn(synced, Success(released.value + interest.value),
          !synced.failed && synced.transport && (saturated || synced.releaseReady || a.runnable))
  }

  lemma DrivenKeeps(e: Entry, a: Answer)
    ensures Driven(e, a).queued == e.queued && Driven(e, a).transport == e.transport
  {
  }

  lemma SettledKeeps(e: Entry, a: Answer)
    ensures Settled(e, a).0.queued == e.queued
    ensures var r := Settled(e, a).1;
      r.Failure? ==> (r.error == SelectorFailed || r.error == SlotFailed) && Settled(e, a).0.failed
  {
  }

  lemma SyncedKeeps(e: Entry, a: Answer)
    ensures Synced(e, a).0.queued == e.queued
    ensures var r := Synced(e, a).1; r.Failure? ==> r.error == SelectorFailed && Synced(e, a).0.failed
  {
  }

  /** A turn never touches the queue flag, and fails only a slot that failed. */
  lemma TurnOfKeeps(e: Entry, a: Answer)
    ensures TurnOf(e, a).entry.queued == e.queued
    ensures var r := TurnOf(e, a).result;
      r.Failure? ==> (r.error == SelectorFailed || r.error == SlotFailed) && TurnOf(e, a).entry.failed
    ensures TurnOf(e, a).runnable ==> TurnOf(e, a).result.Success?
  {
    hide Settled, Synced;
    SettledKeeps(Driven(e, a), a);
    SyncedKeeps(Settled(Driven(e, a), a).0, a);
  }

  /** Queued entries are live and distinct, and their flags say so. */
  ghost predicate Flagged(entries: map<Resource, Entry>, ready: seq<Resource>) {
    && (forall i :: 0 <= i < |ready| ==> ready[i] in entries && entries[ready[i]].queued)
    && Apart(ready)
    && (forall r :: r in entries && entries[r].queued ==> r in ready)
  }

  lemma {:induction false} FlaggedBound(entries: map<Resource, Entry>, ready: seq<Resource>)
    requires forall i :: 0 <= i < |ready| ==> ready[i] in entries
    requires Apart(ready)
    ensures |ready| <= |entries|
  {
    if ready != [] {
      var last := ready[|ready| - 1];
      FlaggedBound(entries - {last}, ready[..|ready| - 1]);
      assert (entries - {last}).Keys == entries.Keys - {last};
    }
  }

  lemma PushFlagged(entries: map<Resource, Entry>, ready: seq<Resource>, r: Resource)
    requires Flagged(entries, ready) && r in entries && !entries[r].queued
    ensures Flagged(entries[r := entries[r].(queued := true)], ready + [r]) && r !in ready
  {
    assert (ready + [r])[|ready|] == r;
  }

  lemma PopFlagged(entries: map<Resource, Entry>, ready: seq<Resource>)
    requires Flagged(entries, ready) && ready != []
    ensures ready[0] in entries && Flagged(entries[ready[0] := entries[ready[0]].(queued := false)], ready[1..])
  {
    var after := entries[ready[0] := entries[ready[0]].(queued := false)];
    forall r | r in after && after[r].queued ensures r in ready[1..] {
      assert r in ready;
    }
  }

  lemma PurgeFlagged(entries: map<Resource, Entry>, ready: seq<Resource>, r: Resource)
    requires Flagged(entries, ready)
    ensures Flagged(if r in entries then entries[r := entries[r].(queued := false)] else entries, Without(ready, r))
  {
    WithoutMembers(ready, r);
    WithoutApart(ready, r);
    var rest := Without(ready, r);
    forall i | 0 <= i < |rest| ensures rest[i] in entries && rest[i] != r && entries[rest[i]].queued {
      assert rest[i] in rest;
    }
  }

  lemma ChangedFlagged(entries: map<Resource, Entry>, ready: seq<Resource>, r: Resource, e: Entry)
    requires Flagged(entries, ready) && r in entries && e.queued == entries[r].queued
    ensures Flagged(entries[r := e], ready) && |entries[r := e]| == |entries|
  {
    SameSize(entries, r, e);
  }

  lemma AdmitFlagged(entries: map<Resource, Entry>, ready: seq<Resource>, r: Resource, e: Entry)
    requires Flagged(entries, ready) && r !in entries && !e.queued
    ensures Flagged(entries[r := e], ready) && r !in ready
    ensures entries[r := e].Keys == entries.Keys + {r} && |entries[r := e]| == |entries| + 1
  {
    assert entries[r := e].Keys == entries.Keys + {r};
  }

  function FailAll(entries: map<Resource, Entry>): map<Resource, Entry> {
    map r | r in entries :: Failing(entries[r]).(queued := false)
  }

  lemma AllFailing(entries: map<Resource, Entry>)
    ensures FailAll(entries).Keys == entries.Keys && |FailAll(entries)| == |entries| && Flagged(FailAll(entries), [])
    ensures forall r :: r in entries ==> FailAll(entries)[r].failed && !FailAll(entries)[r].queued
  {
    assert FailAll(entries).Keys == entries.Keys;
  }

  lemma SameSize(entries: map<Resource, Entry>, r: Resource, e: Entry)
    requires r in entries
    ensures |entries[r := e]| == |entries| && entries[r := e].Keys == entries.Keys
  {
    assert entries[r := e].Keys == entries.Keys;
  }

  // --------------------------------------------------------------- what a round of turns does

  /** The outcome of serving the queue for a while. */
  datatype Round = Round(
    entries: map<Resource, Entry>, ready: seq<Resource>, asked: nat,
    result: Result<nat, SetError>, steps: seq<QueueStep>)

  /** The front slot takes its turn and, if it is still runnable, goes to the back. */
  function FrontRound(
    entries: map<Resource, Entry>, ready: seq<Resource>, asked: nat, environment: nat -> Answer): Round
    requires ready != [] && ready[0] in entries
  {
    var x := ready[0];
    var t := TurnOf(entries[x].(queued := false), environment(asked));
    Round(entries[x := t.entry.(queued := t.runnable)], if t.runnable then ready[1..] + [x] else ready[1..],
      asked + 1, t.result, if t.runnable then [Pop, Push(x)] else [Pop])
  }

  /** Up to `n` slots from the front, until one fails. */
  function Rounds(
    entries: map<Resource, Entry>, ready: seq<Resource>, asked: nat, environment: nat -> Answer, n: nat): Round
    decreases n
  {
    if n == 0 || ready == [] || ready[0] !in entries then Round(entries, ready, asked, Success(0), [])
    else
      var front := FrontRound(entries, ready, asked, environment);
      if front.result.Failure? then front
      else Then(front, Rounds(front.entries, front.ready, front.asked, environment, n - 1))
  }

  /** One round after another. */
  function Then(first: Round, more: Round): Round
    requires first.result.Success?
  {
    more.(steps := first.steps + more.steps,
      result := if more.result.Failure? then more.result else Success(first.result.value + more.result.value))
  }

  lemma ThenThrice(a: Round, b: Round, c: Round)
    requires a.result.Success? && b.result.Success?
    ensures Then(a, Then(b, c)) == Then(Then(a, b), c)
  {
    assert a.steps + (b.steps + c.steps) == a.steps + b.steps + c.steps;
  }

  lemma ThenNothing(a: Round, c: Round)
    requires c.result == Success(0) && c.steps == []
    ensures Then(c, a) == a
    ensures a.result.Success? && a.(result := Success(0), steps := []) == c ==> Then(a, c) == a
  {
    assert [] + a.steps == a.steps && a.steps + [] == a.steps;
  }

  lemma RoundsEnd(entries: map<Resource, Entry>, ready: seq<Resource>, asked: nat, environment: nat -> Answer, n: nat)
    requires n == 0 || ready == []
    ensures Rounds(entries, ready, asked, environment, n) == Round(entries, ready, asked, Success(0), [])
  {
  }

  lemma RoundsNext(entries: map<Resource, Entry>, ready: seq<Resource>, asked: nat, environment: nat -> Answer, n: nat)
    requires 0 < n && ready != [] && ready[0] in entries
    ensures var front := FrontRound(entries, ready, asked, environment);
      Rounds(entries, ready, asked, environment, n)
        == if front.result.Failure? then front else Then(front,
          Rounds(front.entries, front.ready, front.asked, environment, n - 1))
  {
    hide FrontRound;
  }

  lemma RoundsBegin(entries: map<Resource, Entry>, ready: seq<Resource>, asked: nat, environment: nat -> Answer, n: nat)
    ensures var all := Rounds(entries, ready, asked, environment, n);
      all == Then(Round(entries, ready, asked, Success(0), []), all)
  {
    hide Rounds;
    ThenNothing(Rounds(entries, ready, asked, environment, n), Round(entries, ready, asked, Success(0), []));
  }

  lemma RoundsOver(so: Round, environment: nat -> Answer, n: nat)
    requires so.result.Success? && (n == 0 || so.ready == [])
    ensures Then(so, Rounds(so.entries, so.ready, so.asked, environment, n)) == so
  {
    hide Rounds;
    RoundsEnd(so.entries, so.ready, so.asked, environment, n);
    ThenNothing(so, so.(result := Success(0), steps := []));
  }

  /** One more slot: the round ends with its failure, or goes on behind it. */
  lemma RoundsFront(so: Round, front: Round, environment: nat -> Answer, n: nat)
    requires so.result.Success? && 0 < n && so.ready != [] && so.ready[0] in so.entries
    requires front == FrontRound(so.entries, so.ready, so.asked, environment)
    ensures var all := Then(so, Rounds(so.entries, so.ready, so.asked, environment, n));
      if front.result.Failure? then all == front.(steps := so.steps + front.steps)
      else all == Then(front.(steps := so.steps + front.steps, result := Success(so.result.value + front.result.value)),
                       Rounds(front.entries, front.ready, front.asked, environment, n - 1))
  {
    hide Rounds, FrontRound;
    RoundsNext(so.entries, so.ready, so.asked, environment, n);
    if front.result.Success? {
      ThenThrice(so, front, Rounds(front.entries, front.ready, front.asked, environment, n - 1));
    }
  }

  /** What reaches a set for one turn: commands, whether more are left, readiness collected before, more
      readiness if the last poll was cut short, and who has a passed deadline or runnable work by now. */
  datatype TurnInput = TurnInput(
    commands: seq<Resource>, moreCommands: bool, events: seq<Resource>, later: seq<Resource>, due: set<Resource>)

  class ConnectionSet {
    const maxConnections: nat
    const perTurn: nat
    /** What the outside answers, question by question. */
    const environment: nat -> Answer
    var asked: nat
    var entries: map<Resource, Entry>
    /** Tokens below this one were issued. */
    var issued: Resource
    var ready: seq<Resource>
    var commandsPending: bool
    var pollSaturated: bool
    var ownerFailed: bool
    var staleEvents: int
    var staleCommands: int
    ghost var history: seq<QueueStep>

    ghost predicate Valid()
      reads this`entries, this`issued, this`ready, this`history
    {
      && 0 < perTurn && |entries| <= maxConnections && (forall r :: r in entries ==> r < issued)
      && Flagged(entries, ready) && ready == AfterAll([], history) && Orderly([], history)
    }

    constructor (maxConnections: nat, perTurn: nat, environment: nat -> Answer)
      requires 0 < perTurn
      ensures Valid() && ready == [] && entries == map[] && asked == issued == 0 && history == []
      ensures !ownerFailed && !pollSaturated
      ensures this.maxConnections == maxConnections && this.perTurn == perTurn && this.environment == environment
    {
      this.maxConnections, this.perTurn, this.environment := maxConnections, perTurn, environment;
      asked, entries, issued, ready, history := 0, map[], 0, [], [];
      commandsPending, pollSaturated, ownerFailed, staleEvents, staleCommands := false, false, false, 0, 0;
    }

    /** The queue never outgrows the connection bound. */
    lemma ReadyBound()
      requires Valid()
      ensures |ready| <= |entries| <= maxConnections
    {
      FlaggedBound(entries, ready);
    }

    // ------------------------------------------------------------- the queue

    /** Appends a live entry that is not queued yet; any other token is left alone. */
    method Enqueue(resource: Resource)
      requires Valid()
      modifies this`entries, this`ready, this`history
      ensures Valid() && entries.Keys == old(entries.Keys)
      ensures resource in entries ==> resource in ready
      ensures if resource in entries && !old(entries)[resource].queued
        then ready == old(ready) + [resource] && history == old(history) + [Push(resource)]
        else ready == old(ready) && history == old(history)
      ensures forall r :: r in entries ==>
        entries[r] == old(entries)[r].(queued := old(entries)[r].queued || r == resource)
    {
      hide AfterAll, Orderly;
      if resource !in entries || entries[resource].queued {
        return;
      }
      PushFlagged(entries, ready, resource);
      SameSize(entries, resource, entries[resource].(queued := true));
      entries := entries[resource := entries[resource].(queued := true)];
      Recorded(history, Push(resource));
      ready := ready + [resource];
      history := history + [Push(resource)];
    }

    static lemma Recorded(history: seq<QueueStep>, s: QueueStep)
      requires Orderly([], history) && (s.Push? ==> s.resource !in AfterAll([], history))
      ensures AfterAll([], history + [s]) == After(AfterAll([], history), s) && Orderly([], history + [s])
    {
      var longer := history + [s];
      assert longer[..|history|] == history;
      forall i | 0 <= i < |longer| && longer[i].Push? ensures longer[i].resource !in AfterAll([], longer[..i]) {
        if i < |history| {
          assert longer[..i] == history[..i];
        }
      }
    }

    /** Removes an entry's place in the queue, wherever it is. */
    method PurgeReady(resource: Resource)
      requires Valid()
      modifies this`entries, this`ready, this`history
      ensures Valid() && resource !in ready && history == old(history) + [Purge(resource)]
      ensures ready == Without(old(ready), resource) && entries.Keys == old(entries.Keys)
      ensures forall r :: r in entries ==>
        entries[r] == if r == resource then old(entries)[r].(queued := false) else old(entries)[r]
    {
      hide Flagged, AfterAll, Orderly;
      PurgeFlagged(entries, ready, resource);
      WithoutMembers(ready, resource);
      Recorded(history, Purge(resource));
      ready := Without(ready, resource);
      history := history + [Purge(resource)];
      if resource in entries {
        SameSize(entries, resource, entries[resource].(queued := false));
        entries := entries[resource := entries[resource].(queued := false)];
      }
    }

    /** A generation ends; its token is never live again. */
    method RemoveEntry(resource: Resource)
      requires Valid() && resource in entries
      modifies this`entries, this`ready, this`history
      ensures Valid() && entries.Keys == old(entries.Keys) - {resource} && resource < issued
      ensures history == old(history) + [Purge(resource)] && ready == Without(old(ready), resource)
      ensures resource !in ready
    {
      PurgeReady(resource);
      entries := entries - {resource};
    }

    /** A new connection takes a fresh token and is not queued. */
    method Admit() returns (r: Option<Resource>)
      requires Valid()
      modifies this`entries, this`issued
      ensures Valid() && (r.Some? <==> |old(entries)| < maxConnections)
      ensures r.Some? ==> r.value !in old(entries) && r.value !in ready && r.value == old(issued)
      ensures r.Some? ==> entries == old(entries)[r.value := Entry(true, false, false, false, false)]
      ensures issued == old(issued) + if r.Some? then 1 else 0
      ensures r.None? ==> entries == old(entries)
    {
      hide AfterAll, Orderly;
      if |entries| >= maxConnections {
        return None;
      }
      AdmitFlagged(entries, ready, issued, Entry(true, false, false, false, false));
      entries := entries[issued := Entry(true, false, false, false, false)];
      issued := issued + 1;
      return Some(issued - 1);
    }

    // ------------------------------------------------------------- selector failure

    /** The first selector failure empties the queue and fails every slot; later ones change nothing. */
    method LatchSelectorFailure()
      requires Valid()
      modifies this`entries, this`ready, this`history, this`ownerFailed
      ensures Valid() && ownerFailed && entries.Keys == old(entries.Keys)
      ensures !old(ownerFailed) ==>
        ready == [] && history == old(history) + [Clear]
        && forall r :: r in entries ==> entries[r].failed && !entries[r].queued
      ensures old(ownerFailed) ==> entries == old(entries) && ready == old(ready) && history == old(history)
    {
      hide Flagged, AfterAll, Orderly, FailAll;
      if ownerFailed {
        return;
      }
      ownerFailed := true;
      Recorded(history, Clear);
      ready, history := [], history + [Clear];
      AllFailing(entries);
      entries := FailAll(entries);
    }

    method SetEntry(resource: Resource, e: Entry)
      requires Valid() && resource in entries && e.queued == entries[resource].queued
      modifies this`entries
      ensures Valid() && entries == old(entries)[resource := e] && entries.Keys == old(entries.Keys)
    {
      hide Flagged, AfterAll, Orderly;
      ChangedFlagged(entries, ready, resource, e);
      SameSize(entries, resource, e);
      entries := entries[resource := e];
    }

    // ------------------------------------------------------------- one slot

    method Ask() returns (a: Answer)
      modifies this`asked
      ensures a == environment(old(asked)) && asked == old(asked) + 1
    {
      a := environment(asked);
      asked := asked + 1;
    }

    /** The slot obeys one command. */
    method CommandSlot(resource: Resource)
      requires Valid() && resource in entries
      modifies this`entries, this`asked
      ensures Valid() && entries == old(entries)[resource := Driven(old(entries)[resource], environment(old(asked)))]
      ensures entries.Keys == old(entries.Keys) && asked == old(asked) + 1
    {
      hide Flagged, AfterAll, Orderly;
      var a := Ask();
      SetEntry(resource, Driven(entries[resource], a));
    }

    // ------------------------------------------------------------- gathering

    /** Only pushes and pops were added, and they lead from one queue to the other. */
    static ghost predicate Leads(
      start: seq<Resource>, past: seq<QueueStep>, more: seq<QueueStep>, queue: seq<Resource>, history: seq<QueueStep>)
    {
      history == past + more && Gentle(more) && queue == AfterAll(start, more)
    }

    ghost predicate Extends(start: seq<Resource>, past: seq<QueueStep>, more: seq<QueueStep>)
      reads this`ready, this`history
    {
      Leads(start, past, more, ready, history)
    }

    /** Only pushes were added. */
    static ghost predicate Grows(
      start: seq<Resource>, past: seq<QueueStep>, more: seq<QueueStep>, queue: seq<Resource>, history: seq<QueueStep>)
    {
      Leads(start, past, more, queue, history) && start <= queue && Served(start, more) == []
    }

    ghost predicate Gathers(start: seq<Resource>, past: seq<QueueStep>, more: seq<QueueStep>)
      reads this`ready, this`history
    {
      Grows(start, past, more, ready, history)
    }

    static lemma NoSteps(q: seq<Resource>, history: seq<QueueStep>)
      ensures AfterAll(q, []) == q && Served(q, []) == [] && history + [] == history
    {
    }

    static lemma OneStep(q: seq<Resource>, s: QueueStep)
      ensures AfterAll(q, [s]) == After(q, s)
      ensures Served(q, [s]) == if s.Pop? && q != [] then [q[0]] else []
    {
      assert [s][..0] == [];
    }

    /** More of the same. */
    static lemma Leading(
      start: seq<Resource>, past: seq<QueueStep>, more: seq<QueueStep>, middle: seq<Resource>, until: seq<QueueStep>,
      one: seq<QueueStep>, queue: seq<Resource>, history: seq<QueueStep>)
      requires Leads(start, past, more, middle, until) && Leads(middle, until, one, queue, history)
      ensures Leads(start, past, more + one, queue, history)
      ensures Served(start, more + one) == Served(start, more) + Served(middle, one)
    {
      hide AfterAll, Served;
      AfterConcat(start, more, one);
      assert past + (more + one) == past + more + one;
    }

    static lemma Growing(
      start: seq<Resource>, past: seq<QueueStep>, more: seq<QueueStep>, middle: seq<Resource>, until: seq<QueueStep>,
      one: seq<QueueStep>, queue: seq<Resource>, history: seq<QueueStep>)
      requires Grows(start, past, more, middle, until) && Grows(middle, until, one, queue, history)
      ensures Grows(start, past, more + one, queue, history)
    {
      hide Leads, AfterAll, Served;
      Leading(start, past, more, middle, until, one, queue, history);
    }

    /** Commands reach live connections; the others are only counted. */
    static function StaleCommands(entries: map<Resource, Entry>, commands: seq<Resource>): nat {
      if commands == [] then 0
      else StaleCommands(entries, commands[..|commands| - 1]) + if commands[|commands| - 1] in entries then 0 else 1
    }

    static predicate Reached(entries: map<Resource, Entry>, event: Resource) {
      event in entries && entries[event].transport
    }

    /** Readiness reaches live transports; the others are only counted. */
    static function StaleEvents(entries: map<Resource, Entry>, events: seq<Resource>): nat {
      if events == [] then 0
      else StaleEvents(entries, events[..|events| - 1]) + if Reached(entries, events[|events| - 1]) then 0 else 1
    }

    /** The same connections with the same transports. */
    static ghost predicate SameTransports(before: map<Resource, Entry>, after: map<Resource, Entry>) {
      after.Keys == before.Keys && forall r :: r in before ==> after[r].transport == before[r].transport
    }

    static lemma {:induction false} StaleStays(
      before: map<Resource, Entry>, after: map<Resource, Entry>, events: seq<Resource>)
      requires SameTransports(before, after)
      ensures StaleEvents(after, events) == StaleEvents(before, events)
    {
      if events != [] {
        StaleStays(before, after, events[..|events| - 1]);
        assert events[|events| - 1] in after <==> events[|events| - 1] in after.Keys;
        assert events[|events| - 1] in before <==> events[|events| - 1] in before.Keys;
      }
    }

    /** Queues one live entry, as one more gentle step. */
    method QueueMore(
      resource: Resource, ghost start: seq<Resource>, ghost past: seq<QueueStep>, ghost more: seq<QueueStep>)
      returns (ghost all: seq<QueueStep>)
      requires Valid() && resource in entries && Gathers(start, past, more)
      modifies this`entries, this`ready, this`history
      ensures Valid() && Gathers(start, past, all) && old(ready) <= ready && resource in ready
      ensures SameTransports(old(entries), entries)
      ensures forall r :: r in entries ==> entries[r].releaseReady == old(entries)[r].releaseReady
    {
      hide Valid, AfterAll, Gentle, Served;
      ghost var middle, until := ready, history;
      ghost var one: seq<QueueStep> := if entries[resource].queued then [] else [Push(resource)];
      GentlePush(resource);
      NoSteps(ready, history);
      OneStep(ready, Push(resource));
      Enqueue(resource);
      Growing(start, past, more, middle, until, one, ready, history);
      all := more + one;
    }

    static lemma GentlePush(r: Resource)
      ensures Gentle([]) && Gentle([Push(r)])
    {
    }

    method ApplyCommand(
      command: Resource, ghost start: seq<Resource>, ghost past: seq<QueueStep>, ghost more: seq<QueueStep>)
      returns (ghost all: seq<QueueStep>)
      requires Valid() && Gathers(start, past, more)
      modifies this`entries, this`ready, this`history, this`asked, this`staleCommands
      ensures Valid() && Gathers(start, past, all) && old(ready) <= ready
      ensures SameTransports(old(entries), entries) && (command in entries ==> command in ready)
      ensures staleCommands == old(staleCommands) + if command in old(entries) then 0 else 1
    {
      hide Valid, AfterAll, Gentle, Served;
      if command !in entries {
        staleCommands := staleCommands + 1;
        return more;
      }
      CommandSlot(command);
      all := QueueMore(command, start, past, more);
    }

    method ObserveReadiness(
      event: Resource, ghost start: seq<Resource>, ghost past: seq<QueueStep>, ghost more: seq<QueueStep>)
      returns (ghost all: seq<QueueStep>)
      requires Valid() && Gathers(start, past, more)
      modifies this`entries, this`ready, this`history, this`asked, this`staleEvents
      ensures Valid() && Gathers(start, past, all) && old(ready) <= ready
      ensures SameTransports(old(entries), entries) && (Reached(old(entries), event) ==> event in ready)
      ensures staleEvents == old(staleEvents) + if Reached(old(entries), event) then 0 else 1
    {
      hide Valid, AfterAll, Gentle, Served;
      if event !in entries || !entries[event].transport {
        staleEvents := staleEvents + 1;
        return more;
      }
      var a := Ask();
      SetEntry(event, if a.bounded then entries[event] else Failing(entries[event]));
      all := QueueMore(event, start, past, more);
    }

    /** A live connection's command is applied and its slot queued; a stale one is only counted. */
    method DriveCommands(commands: seq<Resource>) returns (ghost more: seq<QueueStep>)
      requires Valid()
      modifies this`entries, this`ready, this`history, this`asked, this`staleCommands
      ensures Valid() && SameTransports(old(entries), entries) && old(ready) <= ready
      ensures Gathers(old(ready), old(history), more) && old(history) <= history
      ensures forall r :: r in commands && r in entries ==> r in ready
      ensures commands == [] ==> Untouched(old(entries), old(ready), old(asked))
      ensures staleCommands == old(staleCommands) + StaleCommands(old(entries), commands)
    {
      hide Valid, AfterAll, Gentle, Served;
      more := [];
      GentlePush(0);
      NoSteps(ready, history);
      for n := 0 to |commands|
        invariant Valid() && SameTransports(old(entries), entries) && old(ready) <= ready
        invariant Gathers(old(ready), old(history), more)
        invariant forall j :: 0 <= j < n && commands[j] in entries ==> commands[j] in ready
        invariant n == 0 ==> Untouched(old(entries), old(ready), old(asked))
        invariant staleCommands == old(staleCommands) + StaleCommands(old(entries), commands[..n])
      {
        assert commands[..n + 1][..n] == commands[..n];
        assert commands[n] in entries.Keys <==> commands[n] in old(entries).Keys;
        more := ApplyCommand(commands[n], old(ready), old(history), more);
      }
      assert commands[..|commands|] == commands;
    }

    /** Readiness of a live transport is observed and its slot queued; any other event is only counted. */
    method IngestReadiness(events: seq<Resource>) returns (ghost more: seq<QueueStep>)
      requires Valid()
      modifies this`entries, this`ready, this`history, this`asked, this`staleEvents
      ensures Valid() && SameTransports(old(entries), entries) && old(ready) <= ready
      ensures Gathers(old(ready), old(history), more) && old(history) <= history
      ensures forall r :: r in events && Reached(old(entries), r) ==> r in ready
      ensures events == [] ==> Untouched(old(entries), old(ready), old(asked))
      ensures staleEvents == old(staleEvents) + StaleEvents(old(entries), events)
    {
      hide Valid, AfterAll, Gentle, Served;
      more := [];
      GentlePush(0);
      NoSteps(ready, history);
      for n := 0 to |events|
        invariant Valid() && SameTransports(old(entries), entries) && old(ready) <= ready
        invariant Gathers(old(ready), old(history), more)
        invariant forall j :: 0 <= j < n && Reached(old(entries), events[j]) ==> events[j] in ready
        invariant n == 0 ==> Untouched(old(entries), old(ready), old(asked))
        invariant staleEvents == old(staleEvents) + StaleEvents(old(entries), events[..n])
      {
        assert events[..n + 1][..n] == events[..n];
        assert events[n] in entries.Keys <==> events[n] in old(entries).Keys;
        more := ObserveReadiness(events[n], old(ready), old(history), more);
      }
      assert events[..|events|] == events;
    }

    ghost predicate Untouched(before: map<Resource, Entry>, queue: seq<Resource>, questions: nat)
      reads this`entries, this`ready, this`asked
    {
      entries == before && ready == queue && asked == questions
    }

    /** Nobody has anything to do. */
    static ghost predicate Idle(entries: map<Resource, Entry>, due: set<Resource>) {
      forall r :: r in entries ==> r !in due && !entries[r].releaseReady
    }

    /** Everyone with something to do by now is queued, behind those already there: `due` are those
        with a passed deadline or runnable work. */
    method EnqueueCandidates(due: set<Resource>) returns (ghost more: seq<QueueStep>)
      requires Valid()
      modifies this`entries, this`ready, this`history
      ensures Valid() && SameTransports(old(entries), entries) && old(ready) <= ready
      ensures Gathers(old(ready), old(history), more) && old(history) <= history
      ensures forall r :: r in entries && (r in due || entries[r].releaseReady) ==> r in ready
      ensures forall r :: r in entries ==> entries[r].releaseReady == old(entries)[r].releaseReady
      ensures Idle(old(entries), due) ==> Untouched(old(entries), old(ready), old(asked))
    {
      hide Valid, AfterAll, Gentle, Served;
      var scan := entries.Keys;
      more := [];
      GentlePush(0);
      NoSteps(ready, history);
      while scan != {}
        invariant Valid() && SameTransports(old(entries), entries) && old(ready) <= ready
        invariant Gathers(old(ready), old(history), more) && scan <= entries.Keys
        invariant forall r :: r in entries && r !in scan && (r in due || entries[r].releaseReady) ==> r in ready
        invariant forall r :: r in entries ==> entries[r].releaseReady == old(entries)[r].releaseReady
        invariant Idle(old(entries), due) ==> Untouched(old(entries), old(ready), old(asked))
        decreases |scan|
      {
        var r :| r in scan;
        scan := scan - {r};
        if r in due || entries[r].releaseReady {
          more := QueueMore(r, old(ready), old(history), more);
        }
      }
    }

    // ------------------------------------------------------------- serving

    /** Takes the front entry out of the queue. */
    method PopFront() returns (resource: Resource)
      requires Valid() && ready != []
      modifies this`entries, this`ready, this`history
      ensures Valid() && resource == old(ready)[0] && ready == old(ready)[1..] && resource !in ready
      ensures resource in old(entries)
      ensures entries == old(entries)[resource := old(entries)[resource].(queued := false)]
      ensures entries.Keys == old(entries.Keys) && Extends(old(ready), old(history), [Pop])
    {
      hide AfterAll, Orderly;
      resource := ready[0];
      FrontApart(ready);
      hide Flagged;
      PopFlagged(entries, ready);
      OneStep(ready, Pop);
      Recorded(history, Pop);
      SameSize(entries, resource, entries[resource].(queued := false));
      ready, history := ready[1..], history + [Pop];
      entries := entries[resource := entries[resource].(queued := false)];
    }

    /** A slot out of the queue takes its turn and, if it is still runnable, goes to the back. */
    method ServeSlot(resource: Resource) returns (t: SlotTurn)
      requires Valid() && resource in entries && resource !in ready && !entries[resource].queued
      modifies this`entries, this`ready, this`history, this`asked
      ensures Valid() && t == TurnOf(old(entries)[resource], environment(old(asked))) && asked == old(asked) + 1
      ensures entries == old(entries)[resource := t.entry.(queued := t.runnable)] && entries.Keys == old(entries.Keys)
      ensures ready == (if t.runnable then old(ready) + [resource] else old(ready))
      ensures history == old(history) + (if t.runnable then [Push(resource)] else [])
      ensures t.result.Failure? ==>
        (t.result.error == SelectorFailed || t.result.error == SlotFailed) && t.entry.failed && !t.runnable
    {
      hide Flagged, AfterAll, Orderly, TurnOf;
      var a := Ask();
      t := TurnOf(entries[resource], a);
      TurnOfKeeps(entries[resource], a);
      SetEntry(resource, t.entry);
      if t.runnable {
        Enqueue(resource);
      }
      assert entries == old(entries)[resource := t.entry.(queued := t.runnable)];
    }

    /** The front slot takes its turn. */
    method DriveFront() returns (r: Result<nat, SetError>, ghost more: seq<QueueStep>)
      requires Valid() && ready != []
      modifies this`entries, this`ready, this`history, this`asked
      ensures Valid() && old(ready)[0] in old(entries) && entries.Keys == old(entries.Keys)
      ensures Round(entries, ready, asked, r, more) == FrontRound(old(entries), old(ready), old(asked), environment)
      ensures Extends(old(ready), old(history), more) && Served(old(ready), more) == [old(ready)[0]]
      ensures r.Failure? ==> (r.error == SelectorFailed || r.error == SlotFailed) && Stopped(old(ready), more)
    {
      hide Flagged, AfterAll, Orderly, Served, TurnOf;
      OneStep(ready, Pop);
      var resource := PopFront();
      Requeued(old(ready), old(history), ready, history, resource);
      var t := ServeSlot(resource);
      more := if t.runnable then [Pop, Push(resource)] else [Pop];
      r := t.result;
      assert old(history) + [Pop] + [] == old(history) + [Pop];
    }

    /** The last slot served failed and waits no more. */
    ghost predicate Stopped(start: seq<Resource>, more: seq<QueueStep>)
      reads this`entries, this`ready
    {
      var served := Served(start, more);
      served != [] && served[|served| - 1] in entries && entries[served[|served| - 1]].failed
      && served[|served| - 1] !in ready
    }

    static lemma FrontApart(q: seq<Resource>)
      requires Apart(q) && q != []
      ensures q[0] !in q[1..]
    {
    }

    static lemma Requeued(
      start: seq<Resource>, past: seq<QueueStep>, middle: seq<Resource>, until: seq<QueueStep>, r: Resource)
      requires start != [] && until == past + [Pop] && middle == AfterAll(start, [Pop])
      ensures AfterAll(start, [Pop, Push(r)]) == middle + [r] && Served(start, [Pop, Push(r)]) == [start[0]]
      ensures until + [Push(r)] == past + [Pop, Push(r)]
    {
      OneStep(start, Pop);
      OneStep(middle, Push(r));
      AfterConcat(start, [Pop], [Push(r)]);
      assert [Pop] + [Push(r)] == [Pop, Push(r)];
    }

    /** Serves from the front, at most `perTurn` slots, until one fails. */
    method DriveReady() returns (r: Result<nat, SetError>, ghost more: seq<QueueStep>)
      requires Valid()
      modifies this`entries, this`ready, this`history, this`asked, this`ownerFailed
      ensures Valid() && entries.Keys == old(entries.Keys) && old(history) <= history
      ensures var round := Rounds(old(entries), old(ready), old(asked), environment, perTurn);
        r == round.result && more == round.steps && asked == round.asked
        && (r != Failure(SelectorFailed) ==> entries == round.entries && ready == round.ready)
      ensures r == Failure(SelectorFailed) ==> ownerFailed
      ensures r != Failure(SelectorFailed) ==>
        ownerFailed == old(ownerFailed) && Extends(old(ready), old(history), more)
      ensures r.Failure? ==> r.error == SelectorFailed || r.error == SlotFailed
      ensures |Served(old(ready), more)| <= perTurn
      ensures r.Success? ==> FullTurn(old(ready), more, perTurn)
      ensures r == Failure(SlotFailed) ==> Stopped(old(ready), more)
    {
      hide Valid, AfterAll, Served, Rounds, FrontRound, Leads, Then;
      var work: nat := 0;
      more := [];
      NoneLead(ready, history);
      RoundsBegin(entries, ready, asked, environment, perTurn);
      for n := 0 to perTurn
        invariant Valid() && entries.Keys == old(entries.Keys) && ownerFailed == old(ownerFailed)
        invariant Extends(old(ready), old(history), more) && |Served(old(ready), more)| == n
        invariant Rounds(old(entries), old(ready), old(asked), environment, perTurn)
          == Then(Round(entries, ready, asked, Success(work), more),
            Rounds(entries, ready, asked, environment, perTurn - n))
      {
        ghost var so := Round(entries, ready, asked, Success(work), more);
        ghost var until := history;
        if ready == [] {
          Led(old(ready), old(history), more, ready, history);
          RoundsOver(so, environment, perTurn - n);
          return Success(work), more;
        }
        ghost var one;
        r, one := DriveFront();
        RoundsFront(so, Round(entries, ready, asked, r, one), environment, perTurn - n);
        Leading(old(ready), old(history), more, so.ready, until, one, ready, history);
        more := more + one;
        Led(old(ready), old(history), more, ready, history);
        if r.Failure? {
          if r.error == SelectorFailed {
            LatchSelectorFailure();
          }
          return r, more;
        }
        work := work + r.value;
      }
      Led(old(ready), old(history), more, ready, history);
      RoundsOver(Round(entries, ready, asked, Success(work), more), environment, 0);
      r := Success(work);
    }

    static lemma Led(
      start: seq<Resource>, past: seq<QueueStep>, more: seq<QueueStep>, queue: seq<Resource>, history: seq<QueueStep>)
      requires Leads(start, past, more, queue, history)
      ensures queue == AfterAll(start, more) && history == past + more
    {
    }

    static lemma NoneLead(q: seq<Resource>, history: seq<QueueStep>)
      ensures Leads(q, history, [], q, history) && Served(q, []) == []
    {
      NoSteps(q, history);
    }

    // ------------------------------------------------------------- turns

    /** Commands and the readiness collected so far. */
    method GatherInput(input: TurnInput) returns (ghost more: seq<QueueStep>)
      requires Valid()
      modifies this`entries, this`ready, this`history, this`asked, this`staleCommands, this`staleEvents
      ensures Valid() && SameTransports(old(entries), entries) && Gathers(old(ready), old(history), more)
      ensures old(ready) <= ready && old(history) <= history && Heard(old(entries), input)
      ensures staleCommands == old(staleCommands) + StaleCommands(old(entries), input.commands)
      ensures staleEvents == old(staleEvents) + StaleEvents(old(entries), input.events)
      ensures input.commands == [] && input.events == [] ==> Untouched(old(entries), old(ready), old(asked))
    {
      hide Valid, AfterAll, Grows, StaleCommands, StaleEvents;
      more := DriveCommands(input.commands);
      ghost var middle, until := ready, history;
      StaleStays(old(entries), entries, input.events);
      ghost var one := IngestReadiness(input.events);
      Growing(old(ready), old(history), more, middle, until, one, ready, history);
      more := more + one;
    }

    /** Live connections commanded and live transports with readiness are queued. */
    ghost predicate Heard(before: map<Resource, Entry>, input: TurnInput)
      reads this`ready
    {
      && (forall x :: x in input.commands && x in before ==> x in ready)
      && (forall x :: x in input.events && Reached(before, x) ==> x in ready)
    }

    /** A poll that was cut short is resumed once. */
    method PollAgain(later: seq<Resource>) returns (failed: bool, ghost more: seq<QueueStep>)
      requires Valid()
      modifies this`entries, this`ready, this`history, this`asked, this`staleEvents, this`pollSaturated, this`ownerFailed
      ensures Valid() && entries.Keys == old(entries.Keys) && old(history) <= history && (failed ==> ownerFailed)
      ensures !failed ==>
        ownerFailed == old(ownerFailed) && Gathers(old(ready), old(history), more) && old(ready) <= ready
      ensures !old(pollSaturated) ==>
        !failed && staleEvents == old(staleEvents) && Untouched(old(entries), old(ready), old(asked))
    {
      hide Valid, AfterAll, Gentle, Served;
      failed, more := false, [];
      GentlePush(0);
      NoSteps(ready, history);
      if pollSaturated {
        var a := Ask();
        if !a.polled {
          LatchSelectorFailure();
          return true, more;
        }
        pollSaturated := a.pollSaturated;
        more := IngestReadiness(later);
      }
    }

    /** The first part of a turn: commands, readiness, and whoever has something to do. */
    method Gather(input: TurnInput) returns (failed: bool, ghost more: seq<QueueStep>)
      requires Valid()
      modifies this`entries, this`ready, this`history, this`asked, this`staleCommands, this`staleEvents,
        this`pollSaturated, this`ownerFailed
      ensures Valid() && entries.Keys == old(entries.Keys) && old(history) <= history && (failed ==> ownerFailed)
      ensures !failed ==>
        ownerFailed == old(ownerFailed) && Gathers(old(ready), old(history), more) && old(ready) <= ready
      ensures !failed ==> forall x :: x in Asking(old(entries), input) ==> x in ready
      ensures staleCommands == old(staleCommands) + StaleCommands(old(entries), input.commands)
      ensures !old(pollSaturated) ==> staleEvents == old(staleEvents) + StaleEvents(old(entries), input.events)
      ensures Calm(input, old(entries)) && !old(pollSaturated) ==>
        !failed && Untouched(old(entries), old(ready), old(asked))
    {
      hide Valid, AfterAll, Grows, StaleCommands, StaleEvents, Idle;
      more := GatherInput(input);
      ghost var middle, until := ready, history;
      ghost var one;
      failed, one := PollAgain(input.later);
      if failed {
        return;
      }
      Growing(old(ready), old(history), more, middle, until, one, ready, history);
      more := more + one;
      middle, until := ready, history;
      one := EnqueueCandidates(input.due);
      Growing(old(ready), old(history), more, middle, until, one, ready, history);
      more := more + one;
    }

    /** Who asked for a turn: live connections commanded or due, and live transports with readiness. */
    static ghost function Asking(entries: map<Resource, Entry>, input: TurnInput): set<Resource> {
      set x | x in entries && (x in input.commands || x in input.due || (x in input.events && entries[x].transport))
    }

    /** Nothing happened since the last turn. */
    static ghost predicate Calm(input: TurnInput, entries: map<Resource, Entry>) {
      input.commands == [] && input.events == [] && Idle(entries, input.due)
    }

    /** One whole turn. A successful one serves exactly the first `perTurn` of those who were queued; one
        that a slot's breach ended early serves exactly those up to that slot. Nobody is removed, and who
        was queued or asked was served or waits on. The set asks for another turn at once exactly when
        somebody waits or input is left over. */
    method Turn(input: TurnInput) returns (r: Result<bool, SetError>, ghost more: seq<QueueStep>)
      requires Valid()
      modifies this
      ensures Valid() && entries.Keys == old(entries.Keys) && old(history) <= history
      ensures old(ownerFailed) ==> r == Failure(OwnerGone) && ready == old(ready) && history == old(history)
      ensures r.Failure? ==> r.error == OwnerGone || r.error == SelectorFailed || r.error == SlotFailed
      ensures r == Failure(OwnerGone) ==> old(ownerFailed)
      ensures r == Failure(SelectorFailed) ==> ownerFailed
      ensures r.Success? || r == Failure(SlotFailed) ==>
        ownerFailed == old(ownerFailed) && Extends(old(ready), old(history), more)
      ensures r.Success? || r == Failure(SlotFailed) ==> |Served(old(ready), more)| <= perTurn
      ensures r.Success? || r == Failure(SlotFailed) ==> NobodyLost(old(ready), Asking(old(entries), input), more)
      ensures r.Success? ==> FullTurn(old(ready), more, perTurn) && ServedTo(old(ready), more, perTurn)
      ensures r == Failure(SlotFailed) ==>
        Stopped(old(ready), more) && ServedTo(old(ready), more, |Served(old(ready), more)|)
      ensures r.Success? ==> (r.value <==> commandsPending || pollSaturated || ready != [])
      ensures !old(ownerFailed) && Calm(input, old(entries)) && !old(pollSaturated) ==>
        Agrees(r, more, old(ready), Rounds(old(entries), old(ready), old(asked), environment, perTurn))
    {
      hide Valid, AfterAll, Apart, Served, FullTurn, Leads, Grows, Rounds, ServedTo, Idle, Calm, Asking;
      more := [];
      if ownerFailed {
        return Failure(OwnerGone), more;
      }
      ReadyApart();
      commandsPending := input.moreCommands;
      var failed;
      failed, more := Gather(input);
      if failed {
        return Failure(SelectorFailed), more;
      }
      ghost var middle, until := ready, history;
      var driven;
      ghost var one;
      driven, one := DriveReady();
      if driven == Failure(SelectorFailed) {
        return Failure(SelectorFailed), more;
      }
      ReadyApart();
      TurnEnds(old(ready), old(history), more, middle, until, one, ready, history, perTurn);
      more := more + one;
      if driven.Failure? {
        return Failure(driven.error), more;
      }
      return Success(commandsPending || pollSaturated || ready != []), more;
    }

    lemma ReadyApart()
      requires Valid()
      ensures Apart(ready) && ready == AfterAll([], history) && Orderly([], history)
    {
    }

    /** Gathering and then serving, seen from before both. */
    static lemma TurnEnds(
      start: seq<Resource>, past: seq<QueueStep>, more: seq<QueueStep>, middle: seq<Resource>, until: seq<QueueStep>,
      one: seq<QueueStep>, queue: seq<Resource>, history: seq<QueueStep>, k: nat)
      requires Grows(start, past, more, middle, until) && Leads(middle, until, one, queue, history)
      requires Apart(start) && start == AfterAll([], past) && Orderly([], history)
      ensures Leads(start, past, more + one, queue, history) && Served(start, more + one) == Served(middle, one)
      ensures ServedTo(start, more + one, |Served(middle, one)|)
      ensures FullTurn(middle, one, k) ==> FullTurn(start, more + one, k)
      ensures FullTurn(middle, one, k) && |Served(middle, one)| <= k ==> ServedTo(start, more + one, k)
      ensures forall x :: x in middle ==> x in Served(start, more + one) || x in queue
    {
      hide Served, AfterAll, Orderly, Apart;
      Leading(start, past, more, middle, until, one, queue, history);
      OrderlyRest([], past, more + one);
      OrderlyPart(start, more, one);
      StaysApart(start, more);
      OrderlyRest(start, more, one);
      forall p | 0 <= p < |start|
        ensures start[p] in Served(start, more + one) <==> p < |Served(middle, one)|
        ensures start[p] in Served(start, more + one) || start[p] in queue
      {
        ServedGently(start, more + one, p);
      }
      forall x | x in middle ensures x in Served(start, more + one) || x in queue {
        var p :| 0 <= p < |middle| && middle[p] == x;
        ServedGently(middle, one, p);
      }
    }

    /** The turn ends as the round says, having served whom the round serves. */
    static ghost predicate Agrees(r: Result<bool, SetError>, more: seq<QueueStep>, queue: seq<Resource>, round: Round) {
      && (r.Success? <==> round.result.Success?) && (r.Failure? && round.result.Failure? ==> r.error == round.result.error)
      && (r != Failure(SelectorFailed) ==> Served(queue, more) == Served(queue, round.steps))
    }

    /** Of those who were queued, exactly the first `n` were served. */
    static ghost predicate ServedTo(start: seq<Resource>, more: seq<QueueStep>, n: nat) {
      forall p :: 0 <= p < |start| ==> (start[p] in Served(start, more) <==> p < n)
    }

    /** Whoever was queued or asked was served or waits on. */
    ghost predicate NobodyLost(start: seq<Resource>, asking: set<Resource>, more: seq<QueueStep>)
      reads this`ready
    {
      forall x :: x in start || x in asking ==> x in Served(start, more) || x in ready
    }

    /** The host polls the selector; what it collected is for the next turn. */
    method PollIo() returns (failed: bool)
      requires Valid()
      modifies this`entries, this`ready, this`history, this`asked, this`pollSaturated, this`ownerFailed
      ensures Valid() && entries.Keys == old(entries.Keys) && old(history) <= history
      ensures failed <==> old(ownerFailed) || !environment(old(asked)).polled
      ensures !failed ==> ready == old(ready) && history == old(history) && ownerFailed == old(ownerFailed)
      ensures failed ==> ownerFailed
    {
      hide Flagged, AfterAll, Orderly;
      if ownerFailed {
        return true;
      }
      var a := Ask();
      if !a.polled {
        LatchSelectorFailure();
        return true;
      }
      pollSaturated := a.pollSaturated;
      return false;
    }

    // ------------------------------------------------------------- access

    /** What settling leaves: a refusal, nothing to settle yet, or a closed connection out of the queue. */
    ghost predicate SettleDone(
      resource: Resource, outcome: (Entry, Result<nat, SetError>), table: map<Resource, Entry>, queue: seq<Resource>,
      r: Result<nat, SetError>)
      reads this`entries, this`ready
    {
      match outcome.1
      case Failure(_) => r == outcome.1
      case Success(n) =>
        && r == (if outcome.0.failed then Failure(SlotFailed) else outcome.1)
        && (if n == 0 then ready == queue && entries == table[resource := outcome.0]
            else ready == Without(queue, resource) && entries == table[resource := outcome.0.(queued := false)])
    }

    /** Settles one connection out of turn; a settled one leaves the queue. */
    method SettleConnection(resource: Resource) returns (r: Result<nat, SetError>)
      requires Valid() && resource in entries
      modifies this`entries, this`ready, this`history, this`asked, this`ownerFailed
      ensures Valid() && entries.Keys == old(entries.Keys) && old(history) <= history && asked == old(asked) + 1
      ensures SettleDone(resource, Settled(old(entries)[resource], environment(old(asked))), old(entries), old(ready), r)
      ensures r == Failure(SelectorFailed) ==> ownerFailed
      ensures r != Failure(SelectorFailed) ==> ownerFailed == old(ownerFailed)
    {
      hide Valid, AfterAll, Failing;
      var a := Ask();
      SettledKeeps(entries[resource], a);
      var (e, settled) := Settled(entries[resource], a);
      SetEntry(resource, e);
      if settled.Failure? {
        if settled.error == SelectorFailed {
          LatchSelectorFailure();
        }
        return settled;
      }
      if settled.value != 0 {
        PurgeReady(resource);
      }
      return if entries[resource].failed then Failure(SlotFailed) else settled;
    }

    /** A command applied at once: the slot is queued, and settled if it can be. */
    method Access(resource: Resource) returns (r: Result<nat, SetError>)
      requires Valid()
      modifies this`entries, this`ready, this`history, this`asked, this`ownerFailed
      ensures Valid() && entries.Keys == old(entries.Keys) && old(history) <= history
      ensures resource !in entries ==> r == Failure(StaleConnection) && Untouched(old(entries), old(ready), old(asked))
      ensures resource in entries ==> asked == old(asked) + 2
      ensures resource in old(entries) ==> Accessed(resource, old(entries), old(ready), old(asked), r)
      ensures r != Failure(SelectorFailed) ==> ownerFailed == old(ownerFailed)
    {
      hide Valid, AfterAll;
      if resource !in entries {
        return Failure(StaleConnection);
      }
      hide Settled, Driven, SettleDone;
      CommandNow(resource);
      r := SettleConnection(resource);
    }

    /** Applies a command and queues the slot. */
    method CommandNow(resource: Resource)
      requires Valid() && resource in entries
      modifies this`entries, this`ready, this`history, this`asked
      ensures Valid() && entries.Keys == old(entries.Keys) && old(history) <= history && asked == old(asked) + 1
      ensures entries
        == old(entries)[resource := Driven(old(entries)[resource], environment(old(asked))).(queued := true)]
      ensures ready == if old(entries)[resource].queued then old(ready) else old(ready) + [resource]
    {
      hide Valid, AfterAll, Driven;
      DrivenKeeps(entries[resource], environment(asked));
      CommandSlot(resource);
      ghost var commanded := entries;
      Enqueue(resource);
      assert entries == commanded[resource := commanded[resource].(queued := true)];
    }

    /** The command, a place in the queue, and what settling makes of it. */
    ghost predicate Accessed(
      resource: Resource, table: map<Resource, Entry>, queue: seq<Resource>, question: nat, r: Result<nat, SetError>)
      requires resource in table
      reads this`entries, this`ready
    {
      var commanded := Driven(table[resource], environment(question)).(queued := true);
      SettleDone(resource, Settled(commanded, environment(question + 1)), table[resource := commanded],
        if table[resource].queued then queue else queue + [resource], r)
    }

    static predicate Retirable(e: Entry) {
      !e.failed && !e.transport && e.closed
    }

    /** A clean, closed connection leaves the set; its token is stale from then on. */
    method Retire(resource: Resource, published: bool) returns (r: Result<(), SetError>)
      requires Valid()
      modifies this`entries, this`ready, this`history
      ensures Valid() && old(history) <= history
      ensures r.Success? <==> published && resource in old(entries) && Retirable(old(entries)[resource])
      ensures entries.Keys == if r.Success? then old(entries.Keys) - {resource} else old(entries.Keys)
      ensures ready == if r.Success? then Without(old(ready), resource) else old(ready)
    {
      hide Flagged, AfterAll, Orderly;
      if resource !in entries {
        return Failure(StaleConnection);
      }
      var e := entries[resource];
      if e.failed {
        return Failure(SlotFailed);
      }
      if e.transport || !e.closed || !published {
        return Failure(StillLive);
      }
      RemoveEntry(resource);
      return Success(());
    }

    /** A failed connection is handed over and leaves the set. */
    method Recover(resource: Resource) returns (r: Result<(), SetError>)
      requires Valid()
      modifies this`entries, this`ready, this`history, this`asked, this`ownerFailed
      ensures Valid() && old(history) <= history
      ensures r.Success? <==> resource in old(entries) && old(entries)[resource].failed
      ensures r.Success? ==> Relinquished(resource, old(entries.Keys), old(ready), old(ownerFailed))
      ensures r.Failure? ==> Untouched(old(entries), old(ready), old(asked)) && history == old(history)
    {
      hide Valid, AfterAll;
      if resource !in entries {
        return Failure(StaleConnection);
      }
      if !entries[resource].failed {
        return Failure(OwnerRunning);
      }
      Relinquish(resource);
      return Success(());
    }

    /** Any live connection, running or failed, is given up and handed over. */
    method Abandon(resource: Resource) returns (r: Result<(), SetError>)
      requires Valid()
      modifies this`entries, this`ready, this`history, this`asked, this`ownerFailed
      ensures Valid() && old(history) <= history && (r.Success? <==> resource in old(entries))
      ensures r.Success? ==> Relinquished(resource, old(entries.Keys), old(ready), old(ownerFailed))
      ensures r.Failure? ==> Untouched(old(entries), old(ready), old(asked)) && history == old(history)
    {
      hide Valid, AfterAll;
      if resource !in entries {
        return Failure(StaleConnection);
      }
      Relinquish(resource);
      return Success(());
    }

    /** The connection is gone from table and queue; the others keep their places unless its
        deregistration took the selector down. */
    ghost predicate Relinquished(resource: Resource, tokens: set<Resource>, queue: seq<Resource>, failed: bool)
      reads this`entries, this`ready, this`ownerFailed
    {
      entries.Keys == tokens - {resource} && resource !in ready
      && (ownerFailed == failed ==> ready == Without(queue, resource)) && (failed ==> ownerFailed)
    }

    method Relinquish(resource: Resource)
      requires Valid() && resource in entries
      modifies this`entries, this`ready, this`history, this`asked, this`ownerFailed
      ensures Valid() && old(history) <= history
      ensures Relinquished(resource, old(entries.Keys), old(ready), old(ownerFailed))
    {
      hide Valid, AfterAll;
      if entries[resource].transport {
        var a := Ask();
        if !a.deregistered {
          LatchSelectorFailure();
        }
      }
      RemoveEntry(resource);
    }
  }

  // --------------------------------------------------------------- runs of a set

  /** Whatever a host may ask of its set. */
  datatype HostStep =
    | TakeTurn(input: TurnInput)
    | Poll
    | Connect
    | Command(resource: Resource)
    | Retiring(resource: Resource, published: bool)
    | Recovering(resource: Resource)
    | Abandoning(resource: Resource)

  /** What a turn answered; other steps are not recorded. */
  type TurnAnswer = Option<Result<bool, SetError>>

  function SuccessfulTurns(answers: seq<TurnAnswer>): nat {
    if answers == [] then 0
    else
      var last := answers[|answers| - 1];
      SuccessfulTurns(answers[..|answers| - 1]) + (if last.Some? && last.value.Success? then 1 else 0)
  }

  method PlayOne(owner: ConnectionSet, step: HostStep) returns (answer: TurnAnswer)
    requires owner.Valid()
    modifies owner
    ensures owner.Valid() && old(owner.history) <= owner.history && (answer.Some? <==> step.TakeTurn?)
    ensures answer.Some? && answer.value.Success? ==>
      FullTurn(old(owner.ready), owner.history[|old(owner.history)|..], owner.perTurn)
  {
    hide ConnectionSet.Valid, AfterAll, Served, FullTurn;
    answer := None;
    match step
    case TakeTurn(input) =>
      var r;
      ghost var more;
      r, more := owner.Turn(input);
      answer := Some(r);
      if r.Success? {
        assert (old(owner.history) + more)[|old(owner.history)|..] == more;
      }
    case Poll => var failed := owner.PollIo();
    case Connect => var r := owner.Admit();
    case Command(resource) => var r := owner.Access(resource);
    case Retiring(resource, published) => var r := owner.Retire(resource, published);
    case Recovering(resource) => var r := owner.Recover(resource);
    case Abandoning(resource) => var r := owner.Abandon(resource);
  }

  lemma Since(queue: seq<Resource>, past: seq<QueueStep>, now: seq<Resource>, history: seq<QueueStep>)
    requires queue == AfterAll([], past) && past <= history && now == AfterAll([], history) && Orderly([], history)
    ensures var more := history[|past|..];
      history == past + more && now == AfterAll(queue, more) && Orderly(queue, more)
  {
    hide AfterAll, Orderly;
    var more := history[|past|..];
    assert history == past + more;
    AfterConcat([], past, more);
    OrderlyRest([], past, more);
  }

  lemma OneTurnMore(q: seq<Resource>, turns: seq<seq<QueueStep>>, rest: seq<QueueStep>, turn: seq<QueueStep>, k: nat)
    requires FullTurns(q, turns, k) && FullTurn(AfterAll(q, Joined(turns) + rest), turn, k)
    ensures FullTurns(q, turns + [rest + turn], k) && Joined(turns + [rest + turn]) == Joined(turns) + rest + turn
  {
    hide AfterAll, Served;
    var more := turns + [rest + turn];
    assert more[..|turns|] == turns;
    AfterConcat(q, Joined(turns), rest);
    AfterConcat(AfterAll(q, Joined(turns)), rest, turn);
    assert Joined(turns) + rest + turn == Joined(turns) + (rest + turn);
  }

  /** Whoever is not removed is served exactly when the number served and overtaken passes its place. */
  ghost predicate PlacesServed(q: seq<Resource>, steps: seq<QueueStep>) {
    forall p :: 0 <= p < |q| && Spares(steps, q[p]) ==>
      (q[p] in Served(q, steps) <==> p < |Served(q, steps)| + Overtaken(q, steps, q[p]))
  }

  /** Whoever is not removed and stood among the first `n` is served. */
  ghost predicate TurnsSuffice(q: seq<Resource>, steps: seq<QueueStep>, n: nat) {
    forall p :: 0 <= p < |q| && Spares(steps, q[p]) && p < n ==> q[p] in Served(q, steps)
  }

  /** A queue's run as its members see it. */
  ghost predicate Fair(q: seq<Resource>, now: seq<Resource>, steps: seq<QueueStep>, perTurn: nat, turns: nat) {
    now == AfterAll(q, steps) && PlacesServed(q, steps) && TurnsSuffice(q, steps, perTurn * turns)
  }

  /** Any run of a set, turns interleaved with everything else a host may do. An entry that is neither
      removed nor lost with the selector is served exactly when its place lies below the number served and
      the number removed ahead of it; that is certain once the successful turns make up for its place. */
  method Play(owner: ConnectionSet, script: seq<HostStep>) returns (answers: seq<TurnAnswer>, ghost more: seq<QueueStep>)
    requires owner.Valid()
    modifies owner
    ensures |answers| == |script| && forall i :: 0 <= i < |script| ==> (answers[i].Some? <==> script[i].TakeTurn?)
    ensures owner.Valid() && owner.history == old(owner.history) + more
    ensures Fair(old(owner.ready), owner.ready, more, owner.perTurn, SuccessfulTurns(answers))
  {
    hide ConnectionSet.Valid, AfterAll, Served, Overtaken, Orderly, Apart, Spares, FullTurn, FullTurns, Joined, Fair,
      SuccessfulTurns;
    ghost var start, past := owner.ready, owner.history;
    ghost var parts: seq<seq<QueueStep>> := [];
    ghost var rest: seq<QueueStep> := [];
    answers := [];
    owner.ReadyApart();
    NoTurns(start, owner.perTurn);
    for n := 0 to |script|
      invariant owner.Valid() && owner.history == past + (Joined(parts) + rest)
      invariant |parts| == SuccessfulTurns(answers) && FullTurns(start, parts, owner.perTurn)
      invariant |answers| == n && forall i :: 0 <= i < n ==> (answers[i].Some? <==> script[i].TakeTurn?)
    {
      ghost var before, queue := owner.history, owner.ready;
      owner.ReadyApart();
      Since(start, past, queue, before);
      assert before[|past|..] == Joined(parts) + rest;
      var answer := PlayOne(owner, script[n]);
      owner.ReadyApart();
      ghost var one := owner.history[|before|..];
      assert owner.history == before + one;
      Regrouped(past, Joined(parts), rest, one);
      TurnAnswered(answers, answer);
      answers := answers + [answer];
      if answer.Some? && answer.value.Success? {
        OneTurnMore(start, parts, rest, one, owner.perTurn);
        parts, rest := parts + [rest + one], [];
      } else {
        rest := rest + one;
      }
    }
    more := Joined(parts) + rest;
    owner.ReadyApart();
    Since(start, past, owner.ready, owner.history);
    assert owner.history[|past|..] == more;
    FairRun(start, parts, rest, owner.perTurn);
  }

  lemma TurnAnswered(answers: seq<TurnAnswer>, answer: TurnAnswer)
    ensures SuccessfulTurns(answers + [answer])
      == SuccessfulTurns(answers) + if answer.Some? && answer.value.Success? then 1 else 0
  {
    assert (answers + [answer])[..|answers|] == answers;
  }

  lemma Regrouped(past: seq<QueueStep>, a: seq<QueueStep>, b: seq<QueueStep>, one: seq<QueueStep>)
    ensures past + (a + b) + one == past + (a + (b + one)) == past + (a + b + one + [])
  {
  }

  lemma FairRun(q: seq<Resource>, turns: seq<seq<QueueStep>>, rest: seq<QueueStep>, k: nat)
    requires Apart(q) && Orderly(q, Joined(turns) + rest) && FullTurns(q, turns, k)
    ensures Fair(q, AfterAll(q, Joined(turns) + rest), Joined(turns) + rest, k, |turns|)
  {
    hide AfterAll, Served, Overtaken, Orderly, Apart, Spares, FullTurns, Joined;
    var more := Joined(turns) + rest;
    forall p | 0 <= p < |q| && Spares(more, q[p])
      ensures q[p] in Served(q, more) <==> p < |Served(q, more)| + Overtaken(q, more, q[p])
      ensures p < k * |turns| ==> q[p] in Served(q, more)
    {
      ServedExactly(q, more, p);
      OrderlyPart(q, Joined(turns), rest);
      SparesParts(Joined(turns), rest, q[p]);
      AfterConcat(q, Joined(turns), rest);
      if p < k * |turns| {
        ServedInTime(q, turns, k, p);
      }
    }
  }

  lemma NoTurns(q: seq<Resource>, k: nat)
    ensures FullTurns(q, [], k) && Joined([]) == [] && SuccessfulTurns([]) == 0
  {
  }

  // --------------------------------------------------------------- an early turn

  /** Nothing happens, and the selector works. */
  const QUIET := Answer(false, false, false, false, false, true, true, true, false, true, true, true, false)

  /** The slot is ready for release, but its transport breaks its memory contract. */
  const BREACH := QUIET.(releaseReady := true, contract := false)

  const FRESH := Entry(true, false, false, false, false)

  lemma QuietCommand()
    ensures var waiting := FRESH.(queued := true);
      Driven(FRESH, QUIET).(queued := true) == waiting && Settled(waiting, QUIET) == (waiting, Success(0))
  {
  }

  lemma BreachTurn()
    ensures TurnOf(FRESH, BREACH).result == Failure(SlotFailed) && !TurnOf(FRESH, BREACH).runnable
  {
  }

  /** A fresh connection that is commanded while nothing else happens waits. */
  method QuietAccess(owner: ConnectionSet, resource: Resource)
    requires owner.Valid() && resource in owner.entries && owner.entries[resource] == FRESH
    requires owner.environment(owner.asked) == owner.environment(owner.asked + 1) == QUIET
    modifies owner
    ensures owner.Valid() && owner.ready == old(owner.ready) + [resource] && owner.asked == old(owner.asked) + 2
    ensures owner.entries == old(owner.entries)[resource := FRESH.(queued := true)]
    ensures owner.ownerFailed == old(owner.ownerFailed) && owner.pollSaturated == old(owner.pollSaturated)
  {
    hide ConnectionSet.Valid, AfterAll, Settled, Driven;
    QuietCommand();
    var r := owner.Access(resource);
  }

  method TwoFresh() returns (owner: ConnectionSet)
    ensures fresh(owner) && owner.Valid() && owner.perTurn == 2 && !owner.ownerFailed && !owner.pollSaturated
    ensures owner.ready == [] && owner.asked == 0 && owner.entries == map[0 := FRESH, 1 := FRESH]
    ensures forall question :: 0 <= question < 4 ==> owner.environment(question) == QUIET
    ensures owner.environment(4) == BREACH
  {
    hide ConnectionSet.Valid;
    owner := new ConnectionSet(2, 2, question => if question < 4 then QUIET else BREACH);
    var first := owner.Admit();
    assert owner.entries == map[0 := FRESH] && owner.entries.Keys == {0};
    var second := owner.Admit();
  }

  lemma OneServed(q: seq<Resource>)
    requires q != []
    ensures Served(q, [Pop]) == [q[0]]
  {
    assert [Pop][..0] == [];
  }

  /** A run of a set whose turn ends early: two connections are queued and two may be served, yet the
      second waits on because the first broke its contract while it was released. */
  method EarlyTurn()
    returns (owner: ConnectionSet, r: Result<bool, SetError>, ghost queue: seq<Resource>, ghost more: seq<QueueStep>)
    ensures fresh(owner) && owner.Valid() && owner.perTurn == 2 && queue == [0, 1] && !owner.ownerFailed
    ensures r == Failure(SlotFailed) && Gentle(more) && owner.ready == AfterAll(queue, more)
    ensures 1 in owner.entries && 1 !in Served(queue, more) && 1 in owner.ready
  {
    hide ConnectionSet.Valid, AfterAll, Served, Rounds, TurnOf, Gentle;
    owner := TwoFresh();
    QuietAccess(owner, 0);
    QuietAccess(owner, 1);
    queue := owner.ready;
    RoundsNext(owner.entries, owner.ready, owner.asked, owner.environment, 2);
    BreachTurn();
    r, more := owner.Turn(TurnInput([], false, [], [], {}));
    OneServed(queue);
  }
}
