/** The moves that write history: committing, settling, adjusting and opening. */
module ProtocolCommits {
  import opened Wrappers
  import opened PoolPricing
  import opened ChannelHistory
  import opened TransferStates
  import opened Messages
  import opened ProtocolInvariant
  import opened ProtocolMoves

  // ----- the payer commits -----

  predicate MayCommit(x: Core, y: Core, t: Id) {
    && x.lock == Some(t) && x.pending.None? && t in x.legs && x.legs[t].outgoing && x.legs[t].state.Proposed?
    && x.hist == y.hist && t in y.legs && !ActedOn(y, x)
  }

  function CommitLeg(x: Core, t: Id): Core
    requires x.terms.Some? && t in x.legs
  {
    x.(legs := x.legs[t := x.legs[t].(state := Committed)], hist := x.hist + [LegOp(x, t)])
  }

  lemma CommitSelf(x: Core, y: Core, sx: Sent, t: Id)
    requires Self(x, sx) && MayCommit(x, y, t) && x.terms.Some?
    ensures Self(CommitLeg(x, t), sx)
  {
    var x' := CommitLeg(x, t);
    assert forall u :: u in x.legs ==> LegOp(x', u) == LegOp(x, u);
    assert forall b :: Backs(x, b) ==> Backs(x', b);
  }

  lemma CommitPairing(x: Core, y: Core, t: Id)
    requires Local(x) && Local(y) && Pairing(x, y) && Pairing(y, x) && MayCommit(x, y, t) && x.terms.Some?
    ensures Pairing(CommitLeg(x, t), y) && Pairing(y, CommitLeg(x, t)) && Agree(CommitLeg(x, t), y)
  {
    var x' := CommitLeg(x, t);
    assert LegOp(x', t) == LegOp(x, t);
    forall u | u in x'.legs && x'.legs[u].outgoing ensures Outcome(x', y, u) {
      assert Outcome(x, y, u);
    }
    forall u | u in y.legs && y.legs[u].outgoing ensures Outcome(y, x', u) {
      assert Outcome(y, x, u);
    }
  }

  lemma CommitFlow(x: Core, y: Core, sx: Sent, sy: Sent, t: Id)
    requires Flow(x, y, sx, sy) && Flow(y, x, sy, sx) && MayCommit(x, y, t) && x.terms.Some?
    requires Local(x) && Backed(y, sy) && !y.legs[t].state.Settled?
    ensures Flow(CommitLeg(x, t), y, sx, sy) && Flow(y, CommitLeg(x, t), sy, sx)
  {
    var x' := CommitLeg(x, t);
    forall i | 0 <= i < |sy| ensures !(sy[i].body.TransferReceipt? && sy[i].body.transferId == t) {
      assert Backs(y, sy[i].body);
    }
  }

  lemma CommitKeeps(x: Core, y: Core, sx: Sent, sy: Sent, t: Id)
    requires Inv(x, y, sx, sy) && MayCommit(x, y, t)
    ensures x.terms.Some? && Inv(CommitLeg(x, t), y, sx, sy)
  {
    assert x.terms.Some? && !y.legs[t].state.Settled? by { assert Outcome(x, y, t); }
    CommitSelf(x, y, sx, t);
    CommitPairing(x, y, t);
    CommitFlow(x, y, sx, sy, t);
  }

  // ----- the payee settles -----

  predicate MaySettle(x: Core, y: Core, t: Id) {
    && x.lock == Some(t) && x.pending.None? && t in x.legs && !x.legs[t].outgoing
    && t in y.legs && y.legs[t].state.Committed?
  }

  function SettleLeg(x: Core, t: Id): Core
    requires x.terms.Some? && t in x.legs
  {
    x.(legs := x.legs[t := x.legs[t].(state := Settled)], hist := x.hist + [LegOp(x, t)], lock := None)
  }

  /** What the pair looks like just before a payee settles. */
  lemma SettleFacts(x: Core, y: Core, sx: Sent, sy: Sent, t: Id)
    requires Inv(x, y, sx, sy) && MaySettle(x, y, t)
    ensures x.terms.Some? && y.terms.Some? && x.legs[t].state.Accepted?
    ensures LegOp(x, t) == LegOp(y, t) && y.hist == x.hist + [LegOp(x, t)]
    ensures y.lock == Some(t) && y.pending.None? && ActedOn(y, x)
  {
    assert Outcome(y, x, t);
  }

  lemma SettleSelf(x: Core, y: Core, sx: Sent, t: Id)
    requires Self(x, sx) && MaySettle(x, y, t) && x.terms.Some?
    ensures Self(SettleLeg(x, t), sx)
  {
    var x' := SettleLeg(x, t);
    assert forall u :: u in x.legs ==> LegOp(x', u) == LegOp(x, u);
    assert forall b :: Backs(x, b) ==> Backs(x', b);
  }

  lemma SettlePairing(x: Core, y: Core, t: Id)
    requires Local(x) && Local(y) && Pairing(x, y) && Pairing(y, x) && MaySettle(x, y, t) && x.terms.Some?
    requires y.hist == x.hist + [LegOp(x, t)] && y.lock == Some(t) && y.pending.None?
    ensures Pairing(SettleLeg(x, t), y) && Pairing(y, SettleLeg(x, t)) && Agree(SettleLeg(x, t), y)
  {
    var x' := SettleLeg(x, t);
    forall u | u in x'.legs && x'.legs[u].outgoing ensures Outcome(x', y, u) {
      assert Outcome(x, y, u);
    }
    forall u | u in y.legs && y.legs[u].outgoing ensures Outcome(y, x', u) {
      assert Outcome(y, x, u);
    }
  }

  lemma SettleFlow(x: Core, y: Core, sx: Sent, sy: Sent, t: Id)
    requires Flow(x, y, sx, sy) && Flow(y, x, sy, sx) && MaySettle(x, y, t) && x.terms.Some?
    requires Local(x) && Locked(y) && y.lock == Some(t) && y.pending.None? && ActedOn(y, x)
    ensures Flow(SettleLeg(x, t), y, sx, sy) && Flow(y, SettleLeg(x, t), sy, sx)
  {
  }

  lemma SettleKeeps(x: Core, y: Core, sx: Sent, sy: Sent, t: Id)
    requires Inv(x, y, sx, sy) && MaySettle(x, y, t)
    ensures x.terms.Some? && Inv(SettleLeg(x, t), y, sx, sy)
  {
    SettleFacts(x, y, sx, sy, t);
    hide Pairing, Flow, Local, Backed, Ordered, Distinct;
    SettleSelf(x, y, sx, t);
    SettlePairing(x, y, t);
    SettleFlow(x, y, sx, sy, t) by { LockedPart(y, sy); }
  }

  lemma LockedPart(x: Core, sx: Sent)
    requires Self(x, sx)
    ensures Locked(x)
  {
  }

  // ----- the payer learns of the settlement -----

  predicate MayFinish(x: Core, y: Core, t: Id) {
    && x.lock == Some(t) && x.pending.None? && t in x.legs && x.legs[t].outgoing && x.legs[t].state.Committed?
    && t in y.legs && y.legs[t].state.Settled?
  }

  function FinishLeg(x: Core, t: Id): Core
    requires t in x.legs
  {
    x.(legs := x.legs[t := x.legs[t].(state := Settled)], lock := None)
  }

  lemma FinishSelf(x: Core, y: Core, sx: Sent, t: Id)
    requires Self(x, sx) && MayFinish(x, y, t)
    ensures Self(FinishLeg(x, t), sx)
  {
    var x' := FinishLeg(x, t);
    assert forall u :: u in x.legs && x.terms.Some? ==> LegOp(x', u) == LegOp(x, u);
    assert forall b :: Backs(x, b) ==> Backs(x', b);
  }

  lemma FinishPairing(x: Core, y: Core, t: Id)
    requires Local(x) && Pairing(x, y) && Pairing(y, x) && MayFinish(x, y, t) && x.hist == y.hist
    ensures Pairing(FinishLeg(x, t), y) && Pairing(y, FinishLeg(x, t))
  {
    var x' := FinishLeg(x, t);
    forall u | u in x'.legs && x'.legs[u].outgoing ensures Outcome(x', y, u) {
      assert Outcome(x, y, u);
    }
    forall u | u in y.legs && y.legs[u].outgoing ensures Outcome(y, x', u) {
      assert Outcome(y, x, u);
    }
  }

  lemma FinishFlow(x: Core, y: Core, sx: Sent, sy: Sent, t: Id, i: nat)
    requires Flow(x, y, sx, sy) && Flow(y, x, sy, sx) && MayFinish(x, y, t)
    requires i < x.lastSeq && i < |sy| && sy[i].body == TransferReceipt(t)
    ensures Flow(FinishLeg(x, t), y, sx, sy) && Flow(y, FinishLeg(x, t), sy, sx)
  {
  }

  lemma FinishKeeps(x: Core, y: Core, sx: Sent, sy: Sent, t: Id, i: nat)
    requires Inv(x, y, sx, sy) && MayFinish(x, y, t)
    requires i < x.lastSeq && i < |sy| && sy[i].body == TransferReceipt(t)
    ensures Inv(FinishLeg(x, t), y, sx, sy)
  {
    assert x.hist == y.hist by { assert Outcome(x, y, t); }
    hide Pairing, Flow, Local, Backed, Ordered, Distinct;
    FinishSelf(x, y, sx, t);
    FinishPairing(x, y, t);
    FinishFlow(x, y, sx, sy, t, i);
  }
}
