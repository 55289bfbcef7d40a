/** FIFO of complete outbound frames with exact byte progress and retained-byte accounting. */
module Writer {
  import opened Primitives
  import opened Operations

  /** A frame in wire order; its wire length and retained memory are sampled once, at commit. */
  datatype QueuedWrite = QueuedWrite(
    operation: OperationId, effect: EffectId, frame: Frame,
    wire: nat, retained: nat, written: nat, started: bool)

  datatype DiscardedWrite = DiscardedWrite(
    operation: OperationId, effect: EffectId, frame: Frame,
    wire: nat, retained: nat, written: nat, delivery: Delivery)

  datatype WriterState = WriterState(
    epoch: Epoch, maxFrames: nat, maxRetained: nat, frames: seq<QueuedWrite>, used: nat)

  datatype IdentityKind = OperationKind | EffectKind

  datatype AdmissionFailure =
    | AdmitStaleEpoch(expected: Epoch, received: Epoch)
    | IdentityInUse(kind: IdentityKind)
    | FrameCapacityReached(limit: nat)
    | RetainedCapacity(retained: nat, incoming: nat, limit: nat)

  datatype ProgressError =
    | StaleEpoch(expected: Epoch, received: Epoch)
    | NoPendingWrite
    | OutOfOrderEffect(expected: EffectId, received: EffectId)
    | ExceedsRemaining(written: nat, remaining: nat)
    | ProgressAccountingOverflow(measured: nat, written: nat)
    | RetainedAccountingUnderflow(retained: nat, released: nat)

  datatype FrameViolation =
    | WireLengthChanged(measured: nat, observed: nat)
    | WriteRangeUnavailable(measured: nat, written: nat, observed: nat)

  /** `crossed` says this report was the first to move a byte of the frame. */
  datatype Progress =
    | Pending(operation: OperationId, crossed: bool)
    | Complete(operation: OperationId, frame: QueuedWrite, crossed: bool)

  datatype WriteSlice = WriteSlice(epoch: Epoch, operation: OperationId, effect: EffectId, bytes: seq<Byte>)

  function AsDiscarded(q: QueuedWrite): DiscardedWrite {
    DiscardedWrite(q.operation, q.effect, q.frame, q.wire, q.retained, q.written,
                   if q.started then PossiblySent else NotSent)
  }

  function InitialWriter(epoch: Epoch, maxFrames: nat, maxRetained: nat): WriterState {
    WriterState(epoch, maxFrames, maxRetained, [], 0)
  }

  function RetainedSum(frames: seq<QueuedWrite>): nat {
    if frames == [] then 0 else RetainedSum(frames[..|frames| - 1]) + frames[|frames| - 1].retained
  }

  function IndexOfEffect(frames: seq<QueuedWrite>, effect: EffectId): (r: Option<nat>)
    ensures r.Some? ==> r.value < |frames| && frames[r.value].effect == effect
    ensures r.Some? ==> forall j :: 0 <= j < r.value ==> frames[j].effect != effect
    ensures r.None? ==> forall j :: 0 <= j < |frames| ==> frames[j].effect != effect
  {
    if frames == [] then None
    else if frames[0].effect == effect then Some(0)
    else
      var rest := IndexOfEffect(frames[1..], effect);
      if rest.Some? then Some(rest.value + 1) else None
  }

  predicate HoldsOperation(frames: seq<QueuedWrite>, operation: OperationId) {
    exists j :: 0 <= j < |frames| && frames[j].operation == operation
  }

  predicate HoldsEffect(frames: seq<QueuedWrite>, effect: EffectId) {
    exists j :: 0 <= j < |frames| && frames[j].effect == effect
  }

  function AdmissionRefusal(w: WriterState, epoch: Epoch, operation: OperationId, effect: EffectId, incoming: nat)
    : Option<AdmissionFailure>
  {
    if epoch != w.epoch then Some(AdmitStaleEpoch(w.epoch, epoch))
    else if HoldsOperation(w.frames, operation) then Some(IdentityInUse(OperationKind))
    else if HoldsEffect(w.frames, effect) then Some(IdentityInUse(EffectKind))
    else if |w.frames| == w.maxFrames then Some(FrameCapacityReached(w.maxFrames))
    else if w.used + incoming > w.maxRetained then Some(RetainedCapacity(w.used, incoming, w.maxRetained))
    else None
  }

  function Admit(w: WriterState, epoch: Epoch, operation: OperationId, effect: EffectId, frame: Frame)
    : (WriterState, Option<AdmissionFailure>)
  {
    var refusal := AdmissionRefusal(w, epoch, operation, effect, frame.retained);
    if refusal.Some? then (w, refusal)
    else
      var queued := QueuedWrite(operation, effect, frame, |frame.bytes|, frame.retained, 0, false);
      (w.(frames := w.frames + [queued], used := w.used + frame.retained), None)
  }

  /** The bytes offered to the transport: at most `maximum` of the front frame's tail. */
  function Front(w: WriterState, maximum: nat): Result<Option<WriteSlice>, FrameViolation> {
    if w.frames == [] then Success(None)
    else
      var front := w.frames[0];
      var observed := |front.frame.bytes|;
      if observed != front.wire then Failure(WireLengthChanged(front.wire, observed))
      else if front.wire < front.written then
        Failure(WriteRangeUnavailable(front.wire, front.written, observed))
      else
        var remaining := front.frame.bytes[front.written..front.wire];
        var length := if |remaining| < maximum then |remaining| else maximum;
        Success(Some(WriteSlice(w.epoch, front.operation, front.effect, remaining[..length])))
  }

  /** One exact progress report for the FIFO front. An over-report leaves every byte count
      alone but remembers that bytes moved. */
  function Advance(w: WriterState, epoch: Epoch, effect: EffectId, count: nat)
    : (WriterState, Result<Progress, ProgressError>)
  {
    if epoch != w.epoch then (w, Failure(StaleEpoch(w.epoch, epoch)))
    else if w.frames == [] then (w, Failure(NoPendingWrite))
    else
      var front := w.frames[0];
      if front.effect != effect then (w, Failure(OutOfOrderEffect(front.effect, effect)))
      else if front.wire < front.written then
        (w, Failure(ProgressAccountingOverflow(front.wire, front.written)))
      else
        var remaining := front.wire - front.written;
        if count > remaining then
          (w.(frames := w.frames[0 := front.(started := front.started || count > 0)]),
           Failure(ExceedsRemaining(count, remaining)))
        else if count == remaining && w.used < front.retained then
          (w, Failure(RetainedAccountingUnderflow(w.used, front.retained)))
        else
          var crossed := count > 0 && !front.started;
          var moved := front.(written := front.written + count, started := front.started || crossed);
          if count < remaining then (w.(frames := w.frames[0 := moved]), Success(Pending(front.operation, crossed)))
          else
            (w.(frames := w.frames[1..], used := w.used - front.retained),
             Success(Complete(front.operation, moved, crossed)))
  }

  function Discard(w: WriterState, epoch: Epoch, effect: EffectId)
    : (WriterState, Result<Option<DiscardedWrite>, ProgressError>)
  {
    if epoch != w.epoch then (w, Failure(StaleEpoch(w.epoch, epoch)))
    else
      var index := IndexOfEffect(w.frames, effect);
      if index.None? then (w, Success(None))
      else
        var q := w.frames[index.value];
        if w.used < q.retained then (w, Failure(RetainedAccountingUnderflow(w.used, q.retained)))
        else (w.(frames := RemoveAt(w.frames, index.value), used := w.used - q.retained),
              Success(Some(AsDiscarded(q))))
  }

  function AllDiscarded(frames: seq<QueuedWrite>): (r: seq<DiscardedWrite>)
    ensures |r| == |frames|
    ensures forall i :: 0 <= i < |frames| ==> r[i] == AsDiscarded(frames[i])
  {
    seq(|frames|, i requires 0 <= i < |frames| => AsDiscarded(frames[i]))
  }

  /** Accounting audit: the recorded total is the sum over the queued frames. */
  predicate AccountingValid(w: WriterState) {
    RetainedSum(w.frames) == w.used && w.used <= U64_MAX
  }

  // --------------------------------------------------------------- retained sums

  lemma RetainedSnoc(frames: seq<QueuedWrite>, q: QueuedWrite)
    ensures RetainedSum(frames + [q]) == RetainedSum(frames) + q.retained
  {
    assert (frames + [q])[..|frames|] == frames;
  }

  lemma {:induction false} RetainedConcat(a: seq<QueuedWrite>, b: seq<QueuedWrite>)
    ensures RetainedSum(a + b) == RetainedSum(a) + RetainedSum(b)
  {
    if b == [] {
      assert a + b == a;
    } else {
      hide RetainedSum;
      var front, last := b[..|b| - 1], b[|b| - 1];
      RetainedConcat(a, front);
      RetainedSnoc(a + front, last);
      RetainedSnoc(front, last);
      assert a + front + [last] == a + b;
      assert front + [last] == b;
    }
  }

  lemma RetainedAround(before: seq<QueuedWrite>, q: QueuedWrite, after: seq<QueuedWrite>)
    ensures RetainedSum(before + [q] + after) == RetainedSum(before + after) + q.retained
  {
    hide RetainedSum;
    RetainedConcat(before + [q], after);
    RetainedSnoc(before, q);
    RetainedConcat(before, after);
  }

  lemma Around<T>(s: seq<T>, i: nat)
    requires i < |s|
    ensures s == s[..i] + [s[i]] + s[i + 1..] && RemoveAt(s, i) == s[..i] + s[i + 1..]
  {
  }

  /** Taking one frame out lowers the sum by what that frame retained. */
  lemma RetainedRemove(frames: seq<QueuedWrite>, i: nat)
    requires i < |frames|
    ensures RetainedSum(frames) == RetainedSum(RemoveAt(frames, i)) + frames[i].retained
  {
    hide RetainedSum;
    RetainedAround(frames[..i], frames[i], frames[i + 1..]);
    Around(frames, i);
  }

  lemma RetainedReplace(frames: seq<QueuedWrite>, i: nat, q: QueuedWrite)
    requires i < |frames| && q.retained == frames[i].retained
    ensures RetainedSum(frames[i := q]) == RetainedSum(frames)
  {
    RetainedRemove(frames, i);
    RetainedRemove(frames[i := q], i);
    assert RemoveAt(frames[i := q], i) == RemoveAt(frames, i);
  }

  // --------------------------------------------------------------- the mutable queue

  class WriteQueue {
    const epoch: Epoch
    const maxFrames: nat
    const maxRetained: nat
    var frames: seq<QueuedWrite>
    var used: nat

    ghost function Model(): WriterState
      reads this
    {
      WriterState(epoch, maxFrames, maxRetained, frames, used)
    }

    constructor (epoch: Epoch, maxFrames: nat, maxRetained: nat)
      ensures Model() == InitialWriter(epoch, maxFrames, maxRetained)
    {
      this.epoch, this.maxFrames, this.maxRetained := epoch, maxFrames, maxRetained;
      frames, used := [], 0;
    }

    method IndexOfOperation(operation: OperationId) returns (index: Option<nat>)
      ensures index.Some? <==> HoldsOperation(frames, operation)
      ensures index.Some? ==> index.value < |frames| && frames[index.value].operation == operation
    {
      for i := 0 to |frames|
        invariant forall j :: 0 <= j < i ==> frames[j].operation != operation
      {
        if frames[i].operation == operation {
          return Some(i);
        }
      }
      return None;
    }

    method FindEffect(effect: EffectId) returns (index: Option<nat>)
      ensures index == IndexOfEffect(frames, effect)
    {
      for i := 0 to |frames|
        invariant forall j :: 0 <= j < i ==> frames[j].effect != effect
      {
        if frames[i].effect == effect {
          return Some(i);
        }
      }
      return None;
    }

    method AdmitFrame(from: Epoch, operation: OperationId, effect: EffectId, frame: Frame)
      returns (refusal: Option<AdmissionFailure>)
      modifies this
      ensures (Model(), refusal) == Admit(old(Model()), from, operation, effect, frame)
    {
      if from != epoch {
        return Some(AdmitStaleEpoch(epoch, from));
      }
      var same := IndexOfOperation(operation);
      if same.Some? {
        return Some(IdentityInUse(OperationKind));
      }
      var used' := FindEffect(effect);
      if used'.Some? {
        return Some(IdentityInUse(EffectKind));
      }
      if |frames| == maxFrames {
        return Some(FrameCapacityReached(maxFrames));
      }
      if used + frame.retained > maxRetained {
        return Some(RetainedCapacity(used, frame.retained, maxRetained));
      }
      used := used + frame.retained;
      frames := frames + [QueuedWrite(operation, effect, frame, |frame.bytes|, frame.retained, 0, false)];
      return None;
    }

    method FrontSlice(maximum: nat) returns (slice: Result<Option<WriteSlice>, FrameViolation>)
      ensures slice == Front(Model(), maximum)
      ensures slice.Success? && slice.value.Some? ==> frames != [] && frames[0].written <= |frames[0].frame.bytes|
      ensures slice.Success? && slice.value.Some? ==>
        |slice.value.value.bytes| <= maximum && slice.value.value.bytes <= frames[0].frame.bytes[frames[0].written..]
    {
      if frames == [] {
        return Success(None);
      }
      var front := frames[0];
      var observed := |front.frame.bytes|;
      if observed != front.wire {
        return Failure(WireLengthChanged(front.wire, observed));
      }
      if front.wire < front.written {
        return Failure(WriteRangeUnavailable(front.wire, front.written, observed));
      }
      var remaining := front.frame.bytes[front.written..front.wire];
      var length := if |remaining| < maximum then |remaining| else maximum;
      return Success(Some(WriteSlice(epoch, front.operation, front.effect, remaining[..length])));
    }

    method AdvanceFront(from: Epoch, effect: EffectId, count: nat) returns (r: Result<Progress, ProgressError>)
      modifies this
      ensures (Model(), r) == Advance(old(Model()), from, effect, count)
    {
      if from != epoch {
        return Failure(StaleEpoch(epoch, from));
      }
      if frames == [] {
        return Failure(NoPendingWrite);
      }
      var front := frames[0];
      if front.effect != effect {
        return Failure(OutOfOrderEffect(front.effect, effect));
      }
      var remaining := CheckedSub(front.wire, front.written);
      if remaining.None? {
        return Failure(ProgressAccountingOverflow(front.wire, front.written));
      }
      if count > remaining.value {
        frames := frames[0 := front.(started := front.started || count > 0)];
        return Failure(ExceedsRemaining(count, remaining.value));
      }
      if count == remaining.value && used < front.retained {
        return Failure(RetainedAccountingUnderflow(used, front.retained));
      }
      var crossed := false;
      if count > 0 && !front.started {
        front := front.(started := true);
        crossed := true;
      }
      front := front.(written := front.written + count);
      if front.written < front.wire {
        frames := frames[0 := front];
        return Success(Pending(front.operation, crossed));
      }
      used := used - front.retained;
      frames := frames[1..];
      return Success(Complete(front.operation, front, crossed));
    }

    method DiscardEffect(from: Epoch, effect: EffectId) returns (r: Result<Option<DiscardedWrite>, ProgressError>)
      modifies this
      ensures (Model(), r) == Discard(old(Model()), from, effect)
    {
      if from != epoch {
        return Failure(StaleEpoch(epoch, from));
      }
      var index := FindEffect(effect);
      if index.None? {
        return Success(None);
      }
      var q := frames[index.value];
      if used < q.retained {
        return Failure(RetainedAccountingUnderflow(used, q.retained));
      }
      used := used - q.retained;
      frames := RemoveAt(frames, index.value);
      return Success(Some(AsDiscarded(q)));
    }

    method DiscardAll() returns (writes: seq<DiscardedWrite>)
      modifies this
      ensures writes == AllDiscarded(old(frames))
      ensures Model() == old(Model()).(frames := [], used := 0)
    {
      writes := AllDiscarded(frames);
      frames, used := [], 0;
    }

    /** Checked fold over the queue, compared with the recorded total. */
    method AccountingIsValid() returns (valid: bool)
      ensures valid <==> AccountingValid(Model())
    {
      var total: nat := 0;
      for i := 0 to |frames|
        invariant total == RetainedSum(frames[..i]) <= U64_MAX
      {
        RetainedSnoc(frames[..i], frames[i]);
        assert frames[..i + 1] == frames[..i] + [frames[i]];
        var next := CheckedAdd(total, frames[i].retained);
        if next.None? {
          RetainedConcat(frames[..i + 1], frames[i + 1..]);
          assert frames == frames[..i + 1] + frames[i + 1..];
          return false;
        }
        total := next.value;
      }
      assert frames[..|frames|] == frames;
      return total == used;
    }
  }
}
