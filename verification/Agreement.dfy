/** Ledger, policy and writer describe the same holdings: the audit always passes and the writer
    never refuses what the policy admitted. */
module Agreement {
  import opened Primitives
  import opened KeySet
  import opened Ledger
  import opened Operations
  import opened Writer
  import opened Core
  import opened World
  import opened Moves
  import opened Progress
  import Machine

  datatype WriteIdentity = WriteIdentity(operation: OperationId, effect: EffectId)

  /** Identities of the frames the policy believes it still owns, in wire order. */
  function HeldIdentities(pending: seq<Record>): seq<WriteIdentity> {
    if pending == [] then []
    else (if pending[0].writeHeld then [WriteIdentity(pending[0].id, pending[0].effect)] else [])
         + HeldIdentities(pending[1..])
  }

  function Identities(frames: seq<QueuedWrite>): seq<WriteIdentity> {
    if frames == [] then []
    else [WriteIdentity(frames[0].operation, frames[0].effect)] + Identities(frames[1..])
  }

  /** The audit finds nothing exactly when policy and writer own the same frames in the same order. */
  lemma {:induction false} AuditIsExact(pending: seq<Record>, frames: seq<QueuedWrite>)
    ensures OwnershipViolation(pending, frames).None? <==> HeldIdentities(pending) == Identities(frames)
  {
    if pending != [] {
      var r := pending[0];
      if !r.writeHeld {
        AuditIsExact(pending[1..], frames);
      } else if frames != [] {
        AuditIsExact(pending[1..], frames[1..]);
        var here, there := WriteIdentity(r.id, r.effect), WriteIdentity(frames[0].operation, frames[0].effect);
        assert HeldIdentities(pending)[0] == here && HeldIdentities(pending)[1..] == HeldIdentities(pending[1..]);
        assert Identities(frames)[0] == there && Identities(frames)[1..] == Identities(frames[1..]);
      }
    }
  }

  lemma {:induction false} ShapedFrom(pending: seq<Record>, frames: seq<QueuedWrite>, slack: Slack, i: nat)
    requires Shaped(pending, frames, slack) && i <= |pending|
    ensures var k := WrittenCount(pending, frames);
      HeldIdentities(pending[i..]) == Identities(frames[if i < k then 0 else i - k..])
    decreases |pending| - i
  {
    var k := WrittenCount(pending, frames);
    if i < |pending| {
      ShapedFrom(pending, frames, slack, i + 1);
      assert pending[i..][1..] == pending[i + 1..];
      if i < k {
        assert WrittenOut(pending[i]);
      } else {
        assert Holds(pending[k + (i - k)], frames[i - k], SlackOf(slack, i - k));
        assert frames[i - k..][1..] == frames[i - k + 1..];
      }
    }
  }

  lemma ShapedAudit(pending: seq<Record>, frames: seq<QueuedWrite>, slack: Slack)
    requires Shaped(pending, frames, slack)
    ensures OwnershipViolation(pending, frames).None?
  {
    ShapedFrom(pending, frames, slack, 0);
    AuditIsExact(pending, frames);
    assert pending[0..] == pending && frames[0..] == frames;
  }

  // --------------------------------------------------------------- what the records hold

  /** The held suffix claims exactly the frames in the queue. */
  lemma {:induction false} RecordTotals(pending: seq<Record>, frames: seq<QueuedWrite>, slack: Slack, n: nat)
    requires Shaped(pending, frames, slack) && n <= |pending|
    ensures var j := if n < WrittenCount(pending, frames) then 0 else n - WrittenCount(pending, frames);
      TotalsOf(RecordClaims(pending[..n])).frames == j
      && TotalsOf(RecordClaims(pending[..n])).writeRetained == RetainedSum(frames[..j])
  {
    var k := WrittenCount(pending, frames);
    if n > 0 {
      RecordTotals(pending, frames, slack, n - 1);
      var r := pending[n - 1];
      assert RecordClaims(pending[..n]) == RecordClaims(pending[..n - 1]) + [Claim(r.reservation, r.writeHeld, false)];
      TotalsSnoc(RecordClaims(pending[..n - 1]), Claim(r.reservation, r.writeHeld, false));
      if n <= k {
        assert WrittenOut(pending[n - 1]);
      } else {
        var j := n - 1 - k;
        assert Holds(pending[k + j], frames[j], SlackOf(slack, j));
        RetainedSnoc(frames[..j], frames[j]);
        assert frames[..j + 1] == frames[..j] + [frames[j]];
      }
    }
  }

  lemma Holdings(w: World, slack: Slack)
    requires Shaped(w.core.machine.pending, w.core.writer.frames, slack) && Accounted(w)
    ensures var l := w.core.machine.ledger;
      var permits := TotalsOf(PermitClaims(w.permits));
      l.frames == permits.frames + |w.core.writer.frames|
      && l.writeRetained == permits.writeRetained + w.core.writer.used
      && l.operations == permits.operations + |w.core.machine.pending|
  {
    var pending, frames := w.core.machine.pending, w.core.writer.frames;
    RecordTotals(pending, frames, slack, |pending|);
    assert pending[..|pending|] == pending && frames[..|frames|] == frames;
    TotalsConcat(PermitClaims(w.permits), RecordClaims(pending));
    ClaimCount(RecordClaims(pending));
  }

  lemma {:induction false} ClaimCount(claims: seq<Claim>)
    ensures TotalsOf(claims).operations == |claims|
  {
    if claims != [] {
      ClaimCount(claims[..|claims| - 1]);
    }
  }

  /** A healthy owner passes its own audit, so builds without it behave the same. */
  lemma AuditPasses(w: World, g: Ghosts)
    requires Sound(w, g, Tight)
    ensures Violation(w.core).None?
    ensures Check(w.core) == (w.core, None) && Health(w.core) == (w.core, None)
  {
    hide OwnershipViolation, RetainedSum, Identified, Recorded, Balanced, Ordered, Tracked, CutAt, Shaped;
    Holdings(w, Tight);
    ShapedAudit(w.core.machine.pending, w.core.writer.frames, Tight);
    NotPoisoned(w);
  }

  lemma NotPoisoned(w: World)
    requires Accounted(w)
    ensures !w.core.machine.ledger.poisoned
    ensures w.core.machine.ledger.writeRetained <= w.core.machine.ledger.limits.maxWriteRetained
    ensures w.core.machine.ledger.frames <= w.core.machine.ledger.limits.maxFrames
    ensures w.core.machine.ledger.operations <= w.core.machine.ledger.limits.maxOperations
    ensures w.core.machine.ledger.limits.Valid() && w.core.machine.ledger.limits.InSpace(w.core.machine.ledger.nextKey)
  {
  }

  // --------------------------------------------------------------- two-level admission

  lemma PermitTotals(permits: seq<Permit>, i: nat)
    requires i < |permits|
    ensures 1 <= TotalsOf(PermitClaims(permits)).frames
    ensures permits[i].reservation.writeRetained <= TotalsOf(PermitClaims(permits)).writeRetained
  {
    TotalsAt(PermitClaims(permits), i, PermitClaims(permits)[i]);
  }

  lemma FreshIdentity(w: World, g: Ghosts, i: nat)
    requires Structured(w, g, Tight) && Identified(w, g.delta) && i < |w.permits|
    ensures !HoldsOperation(w.core.writer.frames, w.permits[i].operation)
    ensures !HoldsEffect(w.core.writer.frames, w.permits[i].effect)
  {
    var pending, frames := w.core.machine.pending, w.core.writer.frames;
    var k := WrittenCount(pending, frames);
    forall j | 0 <= j < |frames|
      ensures frames[j].operation != w.permits[i].operation && frames[j].effect != w.permits[i].effect
    {
      assert Holds(pending[k + j], frames[j], SlackOf(Tight, j));
      assert Same(w.commits[g.order[k + j]], pending[k + j]);
    }
  }

  /** A permit that passes the policy's own checks is never refused by the writer: the ledger
      already reserved the frame, its bytes and its identity. */
  lemma WriterNeverRefuses(w: World, g: Ghosts, i: nat, frame: Frame)
    requires Sound(w, g, Tight) && i < |w.permits|
    requires Machine.CommitFailure(w.core.machine, w.permits[i], frame.retained).None?
    ensures AdmissionRefusal(w.core.writer, w.permits[i].epoch, w.permits[i].operation,
        w.permits[i].effect, frame.retained).None?
  {
    hide Shaped, Ordered, Tracked, CutAt, Cut, Identified, Recorded, Balanced, HoldsOperation, HoldsEffect, TotalsOf,
      PermitClaims, RetainedSum;
    FreshIdentity(w, g, i);
    Holdings(w, Tight);
    PermitTotals(w.permits, i);
    NotPoisoned(w);
  }
}
