/** The bounded collaborators of one slot: a timer queue, publication batches, a transport and a
    decoder. Only what the slot relies on is stated; everything else is arbitrary. */
module Bounded {
  import opened Primitives
  import opened KeySet
  import opened Operations

  // --------------------------------------------------------------- timers

  type Token = nat

  datatype Timer = Timer(deadline: Moment, epoch: Epoch, operation: OperationId)

  /** Count-bounded timers; tokens are never reused. */
  datatype TimerQueue = TimerQueue(capacity: nat, entries: map<Token, Timer>, next: Token)
  {
    ghost predicate Valid() {
      forall t :: t in entries ==> t < next
    }

    function Schedule(timer: Timer): Option<TimerQueue> {
      if |entries| >= capacity then None else Some(TimerQueue(capacity, entries[next := timer], next + 1))
    }

    function Cancel(token: Token): TimerQueue {
      this.(entries := entries - {token})
    }

    ghost predicate Earliest(token: Token) {
      token in entries && forall t :: t in entries ==> entries[token].deadline <= entries[t].deadline
    }
  }

  /** A timer with the earliest deadline. */
  method NextTimer(q: TimerQueue) returns (token: Option<Token>)
    ensures token.None? <==> q.entries == map[]
    ensures token.Some? ==> q.Earliest(token.value)
  {
    var left := q.entries.Keys;
    token := None;
    while left != {}
      invariant left <= q.entries.Keys
      invariant token.None? ==> left == q.entries.Keys
      invariant token.Some? ==> token.value in q.entries
      invariant forall t :: t in q.entries && t !in left ==>
        token.Some? && q.entries[token.value].deadline <= q.entries[t].deadline
      decreases |left|
    {
      var t :| t in left;
      left := left - {t};
      if token.None? || q.entries[t].deadline < q.entries[token.value].deadline {
        token := Some(t);
      }
    }
    if token.None? {
      assert q.entries.Keys == {};
    } else {
      assert token.value in q.entries.Keys;
    }
  }

  // --------------------------------------------------------------- transport

  /** Measured work: at least one operation, or nothing at all. */
  datatype TransportProgress = TransportProgress(operations: nat, readBytes: nat, writtenBytes: nat)
  {
    predicate Measured() {
      0 < operations || (readBytes == 0 && writtenBytes == 0)
    }

    /** Fits a budget of one operation and `chunk` bytes each way. */
    predicate Fits(chunk: nat) {
      operations <= 1 && readBytes <= chunk && writtenBytes <= chunk
    }

    predicate IsIdle() {
      operations == 0 && readBytes == 0 && writtenBytes == 0
    }
  }

  type WorkReport = p: TransportProgress | p.Measured() witness TransportProgress(0, 0, 0)

  datatype TransportFault = TransportFault

  datatype IoResult = MovedBytes(count: nat) | WouldBlock | IoFailed

  /** What a transport answers to one call, and how it looks afterwards. */
  datatype TransportAnswer = TransportAnswer(
    open: bool, canEstablish: bool, canRead: bool, canWrite: bool, hasWork: bool, shutdownComplete: bool,
    retainedLimit: nat, retained: nat, work: Result<WorkReport, TransportFault>, io: IoResult)

  /** An application transport: its observable flags stand still between calls that mutate it, and what
      those calls do is any script at all. Its ghosts remember what the slot asked of it. */
  class SlotTransport {
    const script: nat -> TransportAnswer
    var calls: nat
    var open: bool
    var canEstablish: bool
    var canRead: bool
    var canWrite: bool
    var hasWork: bool
    var shutdownComplete: bool
    var retainedLimit: nat
    var retained: nat
    /** The bytes it took, in order, as far as its claims are possible: a claim of more than the frame has
        left counts for nothing. */
    ghost var accepted: seq<Byte>
    /** It never claimed more than it was offered but no more than the frame had left. */
    ghost var honest: bool
    /** How often it was asked to shut down gracefully. */
    ghost var shutdowns: nat
    /** What it last answered. */
    ghost var lastWork: Result<WorkReport, TransportFault>
    ghost var lastIo: IoResult

    constructor (script: nat -> TransportAnswer)
      ensures this.script == script && calls == 1 && Shows(script(0))
      ensures accepted == [] && honest && shutdowns == 0
    {
      var a := script(0);
      this.script, calls := script, 1;
      open, canEstablish, canRead, canWrite := a.open, a.canEstablish, a.canRead, a.canWrite;
      hasWork, shutdownComplete, retainedLimit, retained := a.hasWork, a.shutdownComplete, a.retainedLimit, a.retained;
      accepted, honest, shutdowns := [], true, 0;
    }

    ghost predicate Shows(a: TransportAnswer)
      reads this
    {
      && open == a.open && canEstablish == a.canEstablish && canRead == a.canRead && canWrite == a.canWrite
      && hasWork == a.hasWork && shutdownComplete == a.shutdownComplete
      && retainedLimit == a.retainedLimit && retained == a.retained
    }

    ghost predicate Answers(call: nat)
      reads this
    {
      calls == call + 1 && Shows(script(call))
    }

    method Answer()
      modifies this`calls, this`open, this`canEstablish, this`canRead, this`canWrite, this`hasWork,
        this`shutdownComplete, this`retainedLimit, this`retained
      ensures Answers(old(calls))
    {
      var a := script(calls);
      calls := calls + 1;
      open, canEstablish, canRead, canWrite := a.open, a.canEstablish, a.canRead, a.canWrite;
      hasWork, shutdownComplete, retainedLimit, retained := a.hasWork, a.shutdownComplete, a.retainedLimit, a.retained;
    }

    method DriveEstablishment() returns (r: Result<WorkReport, TransportFault>)
      modifies this
      ensures Answers(old(calls)) && r == lastWork == script(old(calls)).work
      ensures accepted == old(accepted) && honest == old(honest) && shutdowns == old(shutdowns)
    {
      r := script(calls).work;
      lastWork := r;
      Answer();
    }

    method DriveTransport() returns (r: Result<WorkReport, TransportFault>)
      modifies this
      ensures Answers(old(calls)) && r == lastWork == script(old(calls)).work
      ensures accepted == old(accepted) && honest == old(honest) && shutdowns == old(shutdowns)
    {
      r := script(calls).work;
      lastWork := r;
      Answer();
    }

    method BeginShutdown() returns (r: Result<WorkReport, TransportFault>)
      modifies this
      ensures Answers(old(calls)) && r == lastWork == script(old(calls)).work
      ensures accepted == old(accepted) && honest == old(honest) && shutdowns == old(shutdowns) + 1
    {
      shutdowns := shutdowns + 1;
      r := script(calls).work;
      lastWork := r;
      Answer();
    }

    method Read(capacity: nat) returns (r: IoResult)
      modifies this
      ensures Answers(old(calls)) && r == lastIo == script(old(calls)).io
      ensures accepted == old(accepted) && honest == old(honest) && shutdowns == old(shutdowns)
    {
      r := script(calls).io;
      lastIo := r;
      Answer();
    }

    /** It is offered `bytes`, the front of what the frame has `left`. */
    method Write(bytes: seq<Byte>, ghost left: nat) returns (r: IoResult)
      requires |bytes| <= left
      modifies this
      ensures Answers(old(calls)) && r == lastIo == script(old(calls)).io && shutdowns == old(shutdowns)
      ensures honest == (old(honest) && !(r.MovedBytes? && |bytes| < r.count <= left))
      ensures accepted == old(accepted) + Taken(bytes, left, r)
    {
      r := script(calls).io;
      lastIo := r;
      accepted := accepted + Taken(bytes, left, r);
      honest := honest && !(r.MovedBytes? && |bytes| < r.count <= left);
      Answer();
    }

    method ClearReadiness()
      modifies this
      ensures Answers(old(calls)) && lastIo == old(lastIo)
      ensures accepted == old(accepted) && honest == old(honest) && shutdowns == old(shutdowns)
    {
      Answer();
    }
  }

  /** What a transport can have taken of its offer, given its claim. */
  function Taken(bytes: seq<Byte>, left: nat, r: IoResult): seq<Byte> {
    if !r.MovedBytes? || r.count > left then [] else bytes[..if r.count < |bytes| then r.count else |bytes|]
  }

  // --------------------------------------------------------------- decoder

  datatype DecodeFault = OverCapacity | BadInput

  /** A retained-byte-bounded decoder and reply classifier of any protocol. */
  class FrameDriver {
    var retained: nat
    /** What it last answered. */
    ghost var lastFrame: Result<Option<Frame>, DecodeFault>
    ghost var lastKey: Option<Key>
    ghost var lastFault: Option<DecodeFault>

    method NextFrame() returns (r: Result<Option<Frame>, DecodeFault>)
      modifies this
      ensures lastFrame == r
    {
      retained := *;
      r := *;
      lastFrame := r;
    }

    method Feed(count: nat) returns (fault: Option<DecodeFault>)
      modifies this
      ensures lastFault == fault
    {
      retained := *;
      fault := *;
      lastFault := fault;
    }

    method ReplyKey(frame: Frame) returns (key: Option<Key>)
      modifies this`lastKey
      ensures lastKey == key
    {
      key := *;
      lastKey := key;
    }
  }
}
