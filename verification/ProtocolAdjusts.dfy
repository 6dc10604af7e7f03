/** The moves of a reserve adjustment, and of opening a contact. */
module ProtocolAdjusts {
  import opened Wrappers
  import opened PoolPricing
  import opened ChannelHistory
  import opened TransferStates
  import opened Messages
  import opened ProtocolInvariant
  import opened ProtocolMoves

  // ----- proposing an adjustment -----

  predicate MayHold(x: Core, y: Core, a: Id) {
    && x.hist != [] && x.lock.None? && x.pending.None?
    && a !in x.legs && a !in y.legs && a !in x.applied && a !in y.applied
  }

  function Hold(x: Core, p: Pending): Core {
    x.(pending := Some(p), lock := Some(p.id))
  }

  lemma HoldSelf(x: Core, y: Core, sx: Sent, p: Pending)
    requires Self(x, sx) && MayHold(x, y, p.id) && Unmentioned(p.id, sx)
    ensures Self(Hold(x, p), sx)
  {
    var x' := Hold(x, p);
    assert forall u :: u in x.legs && x.terms.Some? ==> LegOp(x', u) == LegOp(x, u);
    assert forall b :: Backs(x, b) ==> Backs(x', b);
  }

  lemma HoldPairing(x: Core, y: Core, p: Pending)
    requires Local(x) && Pairing(x, y) && Pairing(y, x) && MayHold(x, y, p.id)
    ensures Pairing(Hold(x, p), y) && Pairing(y, Hold(x, p))
  {
    var x' := Hold(x, p);
    forall u | u in x'.legs && x'.legs[u].outgoing ensures Outcome(x', y, u) {
      assert Outcome(x, y, u);
    }
    forall u | u in y.legs && y.legs[u].outgoing ensures Outcome(y, x', u) {
      assert Outcome(y, x, u);
    }
  }

  lemma HoldFlow(x: Core, y: Core, sx: Sent, sy: Sent, p: Pending)
    requires Flow(x, y, sx, sy) && Flow(y, x, sy, sx) && MayHold(x, y, p.id) && Backed(y, sy)
    ensures Flow(Hold(x, p), y, sx, sy) && Flow(y, Hold(x, p), sy, sx)
  {
    forall i | 0 <= i < |sy| ensures !(sy[i].body.ReserveAccept? && sy[i].body.adjustId == p.id) {
      assert Backs(y, sy[i].body);
    }
  }

  lemma HoldKeeps(x: Core, y: Core, sx: Sent, sy: Sent, p: Pending)
    requires Inv(x, y, sx, sy) && MayHold(x, y, p.id) && Unmentioned(p.id, sx)
    ensures Inv(Hold(x, p), y, sx, sy)
  {
    hide Pairing, Flow, Local, Backed, Ordered, Distinct;
    HoldSelf(x, y, sx, p);
    HoldPairing(x, y, p);
    HoldFlow(x, y, sx, sy, p);
  }

  /** Offering the adjustment the lock was just taken for. */
  lemma AdjustKeeps(x: Core, y: Core, sx: Sent, sy: Sent, e: Envelope)
    requires Inv(x, y, sx, sy) && e.body.ReserveAdjust?
    requires x.pending == Some(Pending(e.body.adjustId, e.body.myDelta)) && e.body.opSeq + 1 == |x.hist|
    requires var a := e.body.adjustId; a !in y.legs && a !in y.applied && Unmentioned(a, sx)
    ensures Inv(x, y, sx + [e], sy)
  {
    assert MayOffer(x, y, sx, sy, e.body);
    OfferKeeps(x, y, sx, sy, e);
  }

  // ----- the responder applies it -----

  predicate MayApply(x: Core, y: Core, p: Pending) {
    && x.lock.None? && x.pending.None? && y.pending == Some(p) && x.hist == y.hist && x.hist != []
    && x.terms.Some? && y.terms.Some? && x.terms.value.proposer != y.terms.value.proposer
    && p.id !in x.applied && p.id !in x.legs && p.id !in y.legs
  }

  function ApplyAdjust(x: Core, p: Pending): Core
    requires x.terms.Some?
  {
    x.(hist := x.hist + [Adjusted(p.id, !x.terms.value.proposer, p.delta)], applied := x.applied + {p.id})
  }

  lemma ApplySelf(x: Core, y: Core, sx: Sent, p: Pending)
    requires Self(x, sx) && MayApply(x, y, p)
    ensures Self(ApplyAdjust(x, p), sx)
  {
    var x' := ApplyAdjust(x, p);
    assert forall u :: u in x.legs ==> LegOp(x', u) == LegOp(x, u);
    assert forall b :: Backs(x, b) ==> Backs(x', b);
  }

  lemma ApplyPairing(x: Core, y: Core, p: Pending)
    requires Local(x) && Local(y) && Pairing(x, y) && Pairing(y, x) && MayApply(x, y, p)
    ensures Pairing(ApplyAdjust(x, p), y) && Pairing(y, ApplyAdjust(x, p)) && Agree(ApplyAdjust(x, p), y)
  {
    var x' := ApplyAdjust(x, p);
    forall u | u in x'.legs && x'.legs[u].outgoing ensures Outcome(x', y, u) {
      assert Outcome(x, y, u);
    }
    forall u | u in y.legs && y.legs[u].outgoing ensures Outcome(y, x', u) {
      assert Outcome(y, x, u);
    }
  }

  lemma ApplyFlow(x: Core, y: Core, sx: Sent, sy: Sent, p: Pending)
    requires Flow(x, y, sx, sy) && Flow(y, x, sy, sx) && MayApply(x, y, p)
    requires Locked(x) && Locked(y)
    requires forall j :: x.lastSeq <= j < |sy| ==> !Engaging(sy[j].body)
    ensures Flow(ApplyAdjust(x, p), y, sx, sy) && Flow(y, ApplyAdjust(x, p), sy, sx)
  {
  }

  lemma ApplyKeeps(x: Core, y: Core, sx: Sent, sy: Sent, p: Pending)
    requires Inv(x, y, sx, sy) && MayApply(x, y, p)
    requires forall j :: x.lastSeq <= j < |sy| ==> !Engaging(sy[j].body)
    ensures Inv(ApplyAdjust(x, p), y, sx, sy)
  {
    hide Pairing, Flow, Opened, LegStates, Pinned, Locked, Backed, Ordered, Distinct;
    ApplySelf(x, y, sx, p);
    ApplyPairing(x, y, p);
    ApplyFlow(x, y, sx, sy, p);
  }

  /** Acknowledging an applied adjustment. */
  lemma AcknowledgeKeeps(x: Core, y: Core, sx: Sent, sy: Sent, e: Envelope)
    requires Inv(x, y, sx, sy) && e.body.ReserveAccept? && e.body.adjustId in x.applied && x.lock.None?
    ensures Inv(x, y, sx + [e], sy)
  {
    assert MayOffer(x, y, sx, sy, e.body);
    OfferKeeps(x, y, sx, sy, e);
  }

  // ----- the proposer books it -----

  predicate MayBook(x: Core, y: Core, p: Pending) {
    x.pending == Some(p) && p.id in y.applied
  }

  function BookAdjust(x: Core, p: Pending): Core
    requires x.terms.Some?
  {
    x.(hist := x.hist + [AdjustOp(x, p)], lock := None, pending := None)
  }

  lemma BookFacts(x: Core, y: Core, sx: Sent, sy: Sent, p: Pending)
    requires Inv(x, y, sx, sy) && MayBook(x, y, p)
    ensures x.terms.Some? && y.terms.Some? && y.hist == x.hist + [AdjustOp(x, p)]
    ensures !InCommit(y) && (y.pending.Some? ==> y.pending.value.id !in x.applied)
  {
    if InCommit(y) {
      assert Outcome(y, x, y.lock.value);
    }
  }

  lemma BookSelf(x: Core, y: Core, sx: Sent, p: Pending)
    requires Self(x, sx) && MayBook(x, y, p) && x.terms.Some?
    ensures Self(BookAdjust(x, p), sx)
  {
    var x' := BookAdjust(x, p);
    assert forall u :: u in x.legs ==> LegOp(x', u) == LegOp(x, u);
    assert forall b :: Backs(x, b) ==> Backs(x', b);
  }

  lemma BookPairing(x: Core, y: Core, p: Pending)
    requires Local(x) && Local(y) && Pairing(x, y) && Pairing(y, x) && MayBook(x, y, p) && x.terms.Some?
    requires y.hist == x.hist + [AdjustOp(x, p)] && !InCommit(y)
    ensures Pairing(BookAdjust(x, p), y) && Pairing(y, BookAdjust(x, p)) && Agree(BookAdjust(x, p), y)
  {
    var x' := BookAdjust(x, p);
    forall u | u in x'.legs && x'.legs[u].outgoing ensures Outcome(x', y, u) {
      assert Outcome(x, y, u);
    }
    forall u | u in y.legs && y.legs[u].outgoing ensures Outcome(y, x', u) {
      assert Outcome(y, x, u);
    }
  }

  lemma BookFlow(x: Core, y: Core, sx: Sent, sy: Sent, p: Pending, i: nat, c: Id)
    requires Flow(x, y, sx, sy) && Flow(y, x, sy, sx) && MayBook(x, y, p) && x.terms.Some? && Locked(x)
    requires y.hist == x.hist + [AdjustOp(x, p)] && (y.pending.Some? ==> y.pending.value.id !in x.applied)
    requires i < x.lastSeq && i < |sy| && sy[i].body == ReserveAccept(c, p.id)
    ensures Flow(BookAdjust(x, p), y, sx, sy) && Flow(y, BookAdjust(x, p), sy, sx)
  {
  }

  lemma BookKeeps(x: Core, y: Core, sx: Sent, sy: Sent, p: Pending, i: nat, c: Id)
    requires Inv(x, y, sx, sy) && MayBook(x, y, p)
    requires i < x.lastSeq && i < |sy| && sy[i].body == ReserveAccept(c, p.id)
    ensures x.terms.Some? && Inv(BookAdjust(x, p), y, sx, sy)
  {
    BookFacts(x, y, sx, sy, p);
    hide Pairing, Flow, Opened, LegStates, Pinned, Locked, Backed, Ordered, Distinct;
    BookSelf(x, y, sx, p);
    BookPairing(x, y, p);
    BookFlow(x, y, sx, sy, p, i, c);
  }

  // ----- opening -----

  function Open(x: Core, c: Id, seed: int): Core {
    x.(terms := Some(Terms(c, true, seed, 0)))
  }

  lemma OpenKeeps(x: Core, y: Core, sx: Sent, sy: Sent, c: Id, seed: int)
    requires Inv(x, y, sx, sy) && x.terms.None? && seed > 0
    ensures Inv(Open(x, c, seed), y, sx, sy)
  {
    var x' := Open(x, c, seed);
    OpenSelf(x, sx, c, seed);
    OpenPairing(x, y, c, seed);
    OpenFlow(x, y, sx, sy, c, seed);
  }

  lemma OpenSelf(x: Core, sx: Sent, c: Id, seed: int)
    requires Self(x, sx) && x.terms.None? && seed > 0
    ensures Self(Open(x, c, seed), sx)
  {
    assert forall b :: Backs(x, b) ==> Backs(Open(x, c, seed), b);
  }

  lemma OpenPairing(x: Core, y: Core, c: Id, seed: int)
    requires Local(x) && Local(y) && Pairing(x, y) && Pairing(y, x) && x.terms.None?
    ensures Pairing(Open(x, c, seed), y) && Pairing(y, Open(x, c, seed))
  {
  }

  lemma OpenFlow(x: Core, y: Core, sx: Sent, sy: Sent, c: Id, seed: int)
    requires Flow(x, y, sx, sy) && Flow(y, x, sy, sx) && Opened(x) && x.terms.None?
    ensures Flow(Open(x, c, seed), y, sx, sy) && Flow(y, Open(x, c, seed), sy, sx)
  {
  }

  predicate MayRespond(x: Core, y: Core, c: Id, seed: int) {
    x.terms.None? && y.terms.Some? && y.terms.value.proposer && y.terms.value.id == c
    && y.terms.value.proposerSeed == seed
  }

  function Respond(x: Core, c: Id, seed: int, mySeed: int): Core {
    x.(terms := Some(Terms(c, false, seed, mySeed)), hist := [Seeded(c, seed, mySeed)])
  }

  lemma RespondSelf(x: Core, sx: Sent, c: Id, seed: int, mySeed: int)
    requires Self(x, sx) && x.terms.None? && seed > 0 && mySeed > 0
    ensures Self(Respond(x, c, seed, mySeed), sx)
  {
    assert forall b :: Backs(x, b) ==> Backs(Respond(x, c, seed, mySeed), b);
  }

  lemma RespondPairing(x: Core, y: Core, c: Id, seed: int, mySeed: int)
    requires Local(x) && Local(y) && Pairing(x, y) && Pairing(y, x) && MayRespond(x, y, c, seed)
    ensures y.hist == []
    ensures Pairing(Respond(x, c, seed, mySeed), y) && Pairing(y, Respond(x, c, seed, mySeed))
    ensures Agree(Respond(x, c, seed, mySeed), y)
  {
  }

  lemma RespondFlow(x: Core, y: Core, sx: Sent, sy: Sent, c: Id, seed: int, mySeed: int)
    requires Flow(x, y, sx, sy) && Flow(y, x, sy, sx) && Opened(x) && Opened(y) && Backed(y, sy)
    requires x.terms.None? && y.hist == []
    ensures Flow(Respond(x, c, seed, mySeed), y, sx, sy) && Flow(y, Respond(x, c, seed, mySeed), sy, sx)
  {
    forall j | 0 <= j < |sy| ensures !sy[j].body.TransferPropose? {
      assert Backs(y, sy[j].body);
    }
  }

  lemma RespondKeeps(x: Core, y: Core, sx: Sent, sy: Sent, c: Id, seed: int, mySeed: int)
    requires Inv(x, y, sx, sy) && MayRespond(x, y, c, seed) && seed > 0 && mySeed > 0
    ensures Inv(Respond(x, c, seed, mySeed), y, sx, sy)
  {
    hide Pairing, Flow, Opened, LegStates, Pinned, Locked, Backed, Ordered, Distinct;
    RespondSelf(x, sx, c, seed, mySeed);
    RespondPairing(x, y, c, seed, mySeed);
    RespondFlow(x, y, sx, sy, c, seed, mySeed);
  }

  predicate MayActivate(x: Core, y: Core, seed: int) {
    x.terms.Some? && x.terms.value.proposer && x.hist == []
    && y.terms.Some? && !y.terms.value.proposer && y.terms.value.responderSeed == seed
  }

  function Activate(x: Core, seed: int): Core
    requires x.terms.Some?
  {
    var t := x.terms.value;
    x.(terms := Some(t.(responderSeed := seed)), hist := [Seeded(t.id, t.proposerSeed, seed)])
  }

  lemma ActivateSelf(x: Core, y: Core, sx: Sent, seed: int)
    requires Self(x, sx) && MayActivate(x, y, seed) && seed > 0
    ensures Self(Activate(x, seed), sx)
  {
    assert forall b :: Backs(x, b) ==> Backs(Activate(x, seed), b);
  }

  lemma ActivatePairing(x: Core, y: Core, seed: int)
    requires Local(x) && Local(y) && Pairing(x, y) && Pairing(y, x) && MayActivate(x, y, seed)
    ensures y.hist == Activate(x, seed).hist
    ensures Pairing(Activate(x, seed), y) && Pairing(y, Activate(x, seed))
  {
    var x' := Activate(x, seed);
    forall u | u in y.legs && y.legs[u].outgoing ensures Outcome(y, x', u) {
      assert Outcome(y, x, u);
    }
  }

  lemma ActivateFlow(x: Core, y: Core, sx: Sent, sy: Sent, seed: int)
    requires Flow(x, y, sx, sy) && Flow(y, x, sy, sx) && Local(x) && Local(y) && Backed(x, sx) && Backed(y, sy)
    requires MayActivate(x, y, seed) && y.hist == Activate(x, seed).hist
    ensures Flow(Activate(x, seed), y, sx, sy) && Flow(y, Activate(x, seed), sy, sx)
  {
    forall j | 0 <= j < |sy| ensures sy[j].body.TransferPropose? ==> sy[j].body.opSeq == 0 {
      assert Backs(y, sy[j].body);
    }
    forall j | 0 <= j < |sx| ensures !sx[j].body.TransferAccept? {
      assert Backs(x, sx[j].body);
    }
  }

  lemma ActivateKeeps(x: Core, y: Core, sx: Sent, sy: Sent, seed: int)
    requires Inv(x, y, sx, sy) && MayActivate(x, y, seed) && seed > 0
    ensures Inv(Activate(x, seed), y, sx, sy)
  {
    hide Pairing, Flow, Opened, LegStates, Pinned, Locked, Backed, Ordered, Distinct;
    ActivateSelf(x, y, sx, seed);
    ActivatePairing(x, y, seed);
    ActivateFlow(x, y, sx, sy, seed);
  }
}
