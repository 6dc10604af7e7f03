/** The atomic moves a node makes, each shown to keep the invariant of the pair. */
module ProtocolMoves {
  import opened Wrappers
  import opened PoolPricing
  import opened ChannelHistory
  import opened TransferStates
  import opened Messages
  import opened ProtocolInvariant

  // ----- receiving -----

  /** Moving the receive position forward (with or without acting on the message). */
  function Seen(x: Core, n: nat): Core { x.(lastSeq := n) }

  lemma SeenSelf(x: Core, sx: Sent, n: nat)
    requires Self(x, sx)
    ensures Self(Seen(x, n), sx)
  {
    var x' := Seen(x, n);
    assert forall t :: t in x.legs && x.terms.Some? ==> LegOp(x', t) == LegOp(x, t);
    assert forall b :: Backs(x, b) ==> Backs(x', b);
  }

  lemma SeenPairing(x: Core, y: Core, n: nat)
    requires Pairing(x, y) && Pairing(y, x)
    ensures Pairing(Seen(x, n), y) && Pairing(y, Seen(x, n))
  {
    var x' := Seen(x, n);
    forall t | t in x.legs && x.legs[t].outgoing ensures Outcome(x', y, t) {
      assert Outcome(x, y, t);
    }
    forall t | t in y.legs && y.legs[t].outgoing ensures Outcome(y, x', t) {
      assert Outcome(y, x, t);
    }
  }

  lemma SeenFlow(x: Core, y: Core, sx: Sent, sy: Sent, n: nat)
    requires Flow(x, y, sx, sy) && Flow(y, x, sy, sx) && x.lastSeq <= n <= |sy|
    ensures Flow(Seen(x, n), y, sx, sy) && Flow(y, Seen(x, n), sy, sx)
  {
  }

  lemma SeenKeeps(x: Core, y: Core, sx: Sent, sy: Sent, n: nat)
    requires Inv(x, y, sx, sy) && x.lastSeq <= n <= |sy|
    ensures Inv(Seen(x, n), y, sx, sy)
  {
    hide Self, Pairing, Flow;
    SeenSelf(x, sx, n);
    SeenPairing(x, y, n);
    SeenFlow(x, y, sx, sy, n);
  }

  /** What receiving message i tells a node that had not processed it yet. */
  ghost predicate Readable(x: Core, y: Core, sx: Sent, sy: Sent, i: nat)
    requires i < |sy|
  {
    Backs(y, sy[i].body) &&
    match sy[i].body
    case TransferPropose(t, _, _, _, _, _, _, _) =>
      && t !in x.legs && !y.legs[t].state.Rejected?
      && (forall j :: 0 <= j < |sx| ==> !(sx[j].body.TransferReject? && sx[j].body.transferId == t))
      && (forall j :: i < j < |sy| ==> !(sy[j].body.TransferPropose? && sy[j].body.transferId == t))
      && (y.lock == Some(t) ==> forall j :: i < j < |sy| ==> !Engaging(sy[j].body))
      && (x.hist != [] ==> sy[i].body.opSeq + 1 == |x.hist| || x.pending.Some? || InCommit(x))
    case TransferAccept(t) =>
      !ActedOn(y, x) && (t in x.legs && x.legs[t].outgoing && x.legs[t].state.Proposed? ==> x.hist == y.hist)
    case TransferReject(t, _) =>
      forall j :: y.lastSeq <= j < |sx| ==> !(sx[j].body.TransferPropose? && sx[j].body.transferId == t)
    case ReserveAdjust(_, k, a, d) =>
      && a !in x.applied && a !in x.legs && a !in y.legs
      && y.pending == Some(Pending(a, d)) && k + 1 == |y.hist|
      && (forall j :: i < j < |sy| ==> !Engaging(sy[j].body))
    case _ => true
  }

  /** Receiving a message keeps the invariant, and its content can be relied on. */
  lemma Reading(x: Core, y: Core, sx: Sent, sy: Sent, i: nat)
    requires Inv(x, y, sx, sy) && x.lastSeq <= i < |sy|
    ensures Inv(Seen(x, i + 1), y, sx, sy)
    ensures Readable(Seen(x, i + 1), y, sx, sy, i)
  {
    hide Local, Outcomes, Opening, Ahead, Acceptable, Readable, Pairing;
    SeenKeeps(x, y, sx, sy, i + 1);
    assert Backs(y, sy[i].body);
    match sy[i].body
    case TransferPropose(_, _, _, _, _, _, _, _) => ReadPropose(x, y, sx, sy, i);
    case TransferAccept(_) => ReadAccept(x, y, sx, sy, i);
    case TransferReject(_, _) => ReadReject(x, y, sx, sy, i);
    case ReserveAdjust(_, _, _, _) => ReadAdjust(x, y, sx, sy, i);
    case _ => ReadOther(x, y, sx, sy, i);
  }

  lemma ReadPropose(x: Core, y: Core, sx: Sent, sy: Sent, i: nat)
    requires Self(y, sy) && Flow(y, x, sy, sx) && x.lastSeq <= i < |sy| && sy[i].body.TransferPropose?
    ensures Readable(Seen(x, i + 1), y, sx, sy, i)
  {
    hide Local;
    assert Backs(y, sy[i].body);
  }

  lemma ReadAccept(x: Core, y: Core, sx: Sent, sy: Sent, i: nat)
    requires Backed(y, sy) && Flow(x, y, sx, sy) && Flow(y, x, sy, sx)
    requires x.lastSeq <= i < |sy| && sy[i].body.TransferAccept?
    ensures Readable(Seen(x, i + 1), y, sx, sy, i)
  {
    assert Backs(y, sy[i].body);
  }

  lemma ReadReject(x: Core, y: Core, sx: Sent, sy: Sent, i: nat)
    requires Backed(y, sy) && Turned(y, sx, sy) && x.lastSeq <= i < |sy| && sy[i].body.TransferReject?
    ensures Readable(Seen(x, i + 1), y, sx, sy, i)
  {
    assert Backs(y, sy[i].body);
  }

  lemma ReadAdjust(x: Core, y: Core, sx: Sent, sy: Sent, i: nat)
    requires Self(y, sy) && Flow(y, x, sy, sx) && x.lastSeq <= i < |sy| && sy[i].body.ReserveAdjust?
    ensures Readable(Seen(x, i + 1), y, sx, sy, i)
  {
    assert Backs(y, sy[i].body);
  }

  lemma ReadOther(x: Core, y: Core, sx: Sent, sy: Sent, i: nat)
    requires Backed(y, sy) && x.lastSeq <= i < |sy|
    requires !Engaging(sy[i].body) || sy[i].body.ReserveAccept?
    requires !sy[i].body.TransferReject?
    ensures Readable(Seen(x, i + 1), y, sx, sy, i)
  {
    assert Backs(y, sy[i].body);
  }

  // ----- releasing a lock -----

  predicate MayKill(x: Core, t: Id, s: State) {
    && x.lock == Some(t) && x.pending.None? && t in x.legs
    && (x.legs[t].state.Proposed? || x.legs[t].state.Accepted?)
    && (s.Expired? || s.Aborted? || (s.Rejected? && x.legs[t].outgoing))
  }

  function Kill(x: Core, t: Id, s: State): Core
    requires t in x.legs
  {
    x.(legs := x.legs[t := x.legs[t].(state := s)], lock := None)
  }

  lemma KillLocal(x: Core, t: Id, s: State)
    requires Local(x) && MayKill(x, t, s)
    ensures Local(Kill(x, t, s))
  {
    var x' := Kill(x, t, s);
    assert forall u :: u in x.legs && x.terms.Some? ==> LegOp(x', u) == LegOp(x, u);
  }

  lemma KillSelf(x: Core, sx: Sent, t: Id, s: State)
    requires Self(x, sx) && MayKill(x, t, s)
    ensures Self(Kill(x, t, s), sx)
  {
    hide Local;
    KillLocal(x, t, s);
    assert forall b :: Backs(x, b) ==> Backs(Kill(x, t, s), b);
  }

  lemma KillPairing(x: Core, y: Core, t: Id, s: State)
    requires Local(x) && Pairing(x, y) && Pairing(y, x) && MayKill(x, t, s)
    requires s.Rejected? ==> t !in y.legs
    requires s.Aborted? && !x.legs[t].outgoing ==> t in y.legs && Dead(y.legs[t].state)
    ensures Pairing(Kill(x, t, s), y) && Pairing(y, Kill(x, t, s))
  {
    var x' := Kill(x, t, s);
    forall u | u in x'.legs && x'.legs[u].outgoing ensures Outcome(x', y, u) {
      assert Outcome(x, y, u);
    }
    forall u | u in y.legs && y.legs[u].outgoing ensures Outcome(y, x', u) {
      assert Outcome(y, x, u);
    }
  }

  lemma KillFlow(x: Core, y: Core, sx: Sent, sy: Sent, t: Id, s: State)
    requires Flow(x, y, sx, sy) && Flow(y, x, sy, sx) && MayKill(x, t, s)
    requires s.Rejected? ==>
               forall j :: y.lastSeq <= j < |sx| ==> !(sx[j].body.TransferPropose? && sx[j].body.transferId == t)
    ensures Flow(Kill(x, t, s), y, sx, sy) && Flow(y, Kill(x, t, s), sy, sx)
  {
  }

  lemma KillKeeps(x: Core, y: Core, sx: Sent, sy: Sent, t: Id, s: State)
    requires Inv(x, y, sx, sy) && MayKill(x, t, s)
    requires s.Rejected? ==>
               && t !in y.legs
               && forall j :: y.lastSeq <= j < |sx| ==> !(sx[j].body.TransferPropose? && sx[j].body.transferId == t)
    requires s.Aborted? && !x.legs[t].outgoing ==> t in y.legs && Dead(y.legs[t].state)
    ensures Inv(Kill(x, t, s), y, sx, sy)
  {
    hide Pairing, Flow, Local;
    KillSelf(x, sx, t, s);
    KillPairing(x, y, t, s);
    KillFlow(x, y, sx, sy, t, s);
  }

  // ----- sending -----

  lemma NoteSelf(x: Core, sx: Sent, e: Envelope)
    requires Self(x, sx) && !Engaging(e.body) && Backs(x, e.body)
    ensures Self(x, sx + [e])
  {
    hide Local, Backs;
    var sx' := sx + [e];
    assert forall i :: 0 <= i < |sx'| ==> sx'[i] == if i < |sx| then sx[i] else e;
  }

  lemma NoteFlow(x: Core, y: Core, sx: Sent, sy: Sent, e: Envelope)
    requires Flow(x, y, sx, sy) && Flow(y, x, sy, sx) && !Engaging(e.body)
    requires e.body.TransferReject? ==>
               forall j :: x.lastSeq <= j < |sy| && sy[j].body.TransferPropose? ==>
                 sy[j].body.transferId != e.body.transferId
    ensures Flow(x, y, sx + [e], sy) && Flow(y, x, sy, sx + [e])
  {
    var sx' := sx + [e];
    assert forall i :: 0 <= i < |sx'| ==> sx'[i] == if i < |sx| then sx[i] else e;
  }

  /** Sending anything that neither offers nor accepts an operation. */
  lemma NoteKeeps(x: Core, y: Core, sx: Sent, sy: Sent, e: Envelope)
    requires Inv(x, y, sx, sy) && !Engaging(e.body) && Backs(x, e.body)
    requires e.body.TransferReject? ==>
               forall j :: x.lastSeq <= j < |sy| && sy[j].body.TransferPropose? ==>
                 sy[j].body.transferId != e.body.transferId
    ensures Inv(x, y, sx + [e], sy)
  {
    hide Self, Pairing, Flow, Backs;
    NoteSelf(x, sx, e);
    NoteFlow(x, y, sx, sy, e);
  }

  // ----- taking up a transfer -----

  function AddLeg(x: Core, t: Id, l: Leg): Core {
    x.(legs := x.legs[t := l], lock := Some(t))
  }

  predicate MayAdd(x: Core, t: Id, l: Leg) {
    && x.hist != [] && x.lock.None? && x.pending.None? && t !in x.legs
    && l.opSeq + 1 == |x.hist|
    && (if l.outgoing then l.state.Proposed? else l.state.Accepted?)
  }

  lemma AddLocal(x: Core, t: Id, l: Leg)
    requires Local(x) && MayAdd(x, t, l)
    ensures Local(AddLeg(x, t, l))
  {
    var x' := AddLeg(x, t, l);
    assert forall u :: u in x.legs && x.terms.Some? ==> LegOp(x', u) == LegOp(x, u);
  }

  lemma AddSelf(x: Core, sx: Sent, t: Id, l: Leg)
    requires Self(x, sx) && MayAdd(x, t, l)
    requires forall i :: 0 <= i < |sx| ==>
               !(sx[i].body.TransferPropose? && sx[i].body.transferId == t)
               && !(sx[i].body.TransferReject? && sx[i].body.transferId == t)
               && !(sx[i].body.ReserveAdjust? && sx[i].body.adjustId == t)
    ensures Self(AddLeg(x, t, l), sx)
  {
    hide Local;
    AddLocal(x, t, l);
  }

  lemma AddPairing(x: Core, y: Core, t: Id, l: Leg)
    requires Local(x) && Pairing(x, y) && Pairing(y, x) && MayAdd(x, t, l)
    requires if l.outgoing then t !in y.legs && t !in x.applied && t !in y.applied
             else t in y.legs && y.legs[t].outgoing && y.legs[t].opSeq == l.opSeq
                  && y.legs[t].src == l.src && y.legs[t].dst == l.dst && !y.legs[t].state.Rejected?
    ensures Pairing(AddLeg(x, t, l), y) && Pairing(y, AddLeg(x, t, l))
  {
    var x' := AddLeg(x, t, l);
    forall u | u in x'.legs && x'.legs[u].outgoing ensures Outcome(x', y, u) {
      if u != t {
        assert Outcome(x, y, u);
      }
    }
    forall u | u in y.legs && y.legs[u].outgoing ensures Outcome(y, x', u) {
      assert Outcome(y, x, u);
    }
  }

  lemma AddFlow(x: Core, y: Core, sx: Sent, sy: Sent, t: Id, l: Leg)
    requires Flow(x, y, sx, sy) && Flow(y, x, sy, sx) && MayAdd(x, t, l)
    requires t !in y.applied && (l.outgoing ==> t !in y.legs)
    requires forall i :: 0 <= i < |sx| && sx[i].body.ReserveAdjust? ==> sx[i].body.adjustId != t
    requires forall i :: 0 <= i < |sy| && sy[i].body.ReserveAdjust? ==> sy[i].body.adjustId != t
    requires !l.outgoing ==> forall j :: 0 <= j < |sx| && sx[j].body.TransferAccept? ==> sx[j].body.transferId != t
    requires forall j :: x.lastSeq <= j < |sy| ==>
               !(sy[j].body.TransferPropose? && sy[j].body.transferId == t)
               && !(sy[j].body.TransferAccept? && sy[j].body.transferId == t)
    requires !l.outgoing && y.lock == Some(t) ==> forall j :: x.lastSeq <= j < |sy| ==> !Engaging(sy[j].body)
    ensures Flow(AddLeg(x, t, l), y, sx, sy) && Flow(y, AddLeg(x, t, l), sy, sx)
  {
  }

  /** Taking up a transfer t: as payer under a fresh id, as payee on a proposal just received. */
  ghost predicate Unmentioned(t: Id, s: Sent) {
    forall i :: 0 <= i < |s| ==>
      var b := s[i].body;
      && !((b.TransferPropose? || b.TransferAccept? || b.TransferReject?) && b.transferId == t)
      && !(b.ReserveAdjust? && b.adjustId == t)
  }

  lemma AddOutKeeps(x: Core, y: Core, sx: Sent, sy: Sent, t: Id, l: Leg)
    requires Inv(x, y, sx, sy) && MayAdd(x, t, l) && l.outgoing
    requires Unmentioned(t, sx) && Unmentioned(t, sy)
    requires t !in y.legs && t !in x.applied && t !in y.applied
    ensures Inv(AddLeg(x, t, l), y, sx, sy)
  {
    hide Pairing, Flow, Local;
    AddSelf(x, sx, t, l);
    AddPairing(x, y, t, l);
    AddFlow(x, y, sx, sy, t, l);
  }

  lemma AddInKeeps(x: Core, y: Core, sx: Sent, sy: Sent, t: Id, l: Leg)
    requires Inv(x, y, sx, sy) && MayAdd(x, t, l) && !l.outgoing
    requires t in y.legs && y.legs[t].outgoing && y.legs[t].opSeq == l.opSeq
             && y.legs[t].src == l.src && y.legs[t].dst == l.dst && !y.legs[t].state.Rejected?
    requires forall i :: 0 <= i < |sx| ==> !(sx[i].body.TransferReject? && sx[i].body.transferId == t)
    requires forall j :: x.lastSeq <= j < |sy| ==> !(sy[j].body.TransferPropose? && sy[j].body.transferId == t)
    requires y.lock == Some(t) ==> forall j :: x.lastSeq <= j < |sy| ==> !Engaging(sy[j].body)
    ensures Inv(AddLeg(x, t, l), y, sx, sy)
  {
    hide Pairing, Flow, Local;
    AddInFacts(x, y, sx, sy, t);
    AddSelf(x, sx, t, l);
    AddPairing(x, y, t, l);
    AddFlow(x, y, sx, sy, t, l);
  }

  lemma AddInFacts(x: Core, y: Core, sx: Sent, sy: Sent, t: Id)
    requires Inv(x, y, sx, sy)
    requires t !in x.legs && t in y.legs && y.legs[t].outgoing
    ensures t !in y.applied
    ensures forall i :: 0 <= i < |sx| ==>
              && !((sx[i].body.TransferPropose? || sx[i].body.TransferAccept?) && sx[i].body.transferId == t)
              && !(sx[i].body.ReserveAdjust? && sx[i].body.adjustId == t)
    ensures forall i :: 0 <= i < |sy| ==>
              && !(sy[i].body.TransferAccept? && sy[i].body.transferId == t)
              && !(sy[i].body.ReserveAdjust? && sy[i].body.adjustId == t)
  {
    forall i | 0 <= i < |sx|
      ensures !((sx[i].body.TransferPropose? || sx[i].body.TransferAccept?) && sx[i].body.transferId == t)
    {
      assert Backs(x, sx[i].body);
    }
    forall i | 0 <= i < |sy| ensures !(sy[i].body.TransferAccept? && sy[i].body.transferId == t) {
      assert Backs(y, sy[i].body);
    }
  }

  // ----- offering and accepting -----

  /** What sending an offer or an acceptance asks of the pair. */
  ghost predicate MayOffer(x: Core, y: Core, sx: Sent, sy: Sent, b: Body) {
    && Engaging(b) && Backs(x, b) && !ActedOn(x, y)
    && (forall i :: 0 <= i < |sx| ==> !TookLock(x, sx[i].body) && !SameOffer(sx[i].body, b))
    && (b.TransferAccept? && b.transferId in y.legs ==>
         y.legs[b.transferId].outgoing && y.legs[b.transferId].state.Proposed? ==> x.hist == y.hist)
    && (b.ReserveAdjust? ==>
         b.adjustId !in y.applied && x.pending == Some(Pending(b.adjustId, b.myDelta)) && b.opSeq + 1 == |x.hist|
         && b.adjustId !in x.legs && b.adjustId !in y.legs)
    && (b.TransferPropose? ==>
         && b.transferId !in y.legs && !x.legs[b.transferId].state.Rejected?
         && (forall i :: 0 <= i < |sy| && sy[i].body.TransferReject? ==> sy[i].body.transferId != b.transferId)
         && (y.hist != [] ==> b.opSeq + 1 == |y.hist| || y.pending.Some? || InCommit(y))
         && (forall i :: 0 <= i < |sx| ==>
              && (sx[i].body.ReserveAccept? && y.pending.Some? && y.pending.value.id == sx[i].body.adjustId ==>
                   b.opSeq == |y.hist|)
              && (sx[i].body.TransferReceipt? && InCommit(y) && y.lock.value == sx[i].body.transferId ==>
                   b.opSeq + 1 == |y.hist|)))
  }

  lemma OfferSelf(x: Core, y: Core, sx: Sent, sy: Sent, e: Envelope)
    requires Self(x, sx) && MayOffer(x, y, sx, sy, e.body)
    ensures Self(x, sx + [e])
  {
    hide Local, Backs;
    var sx' := sx + [e];
    assert forall i :: 0 <= i < |sx'| ==> sx'[i] == if i < |sx| then sx[i] else e;
  }

  lemma OfferFlow(x: Core, y: Core, sx: Sent, sy: Sent, e: Envelope)
    requires Flow(x, y, sx, sy) && Flow(y, x, sy, sx) && MayOffer(x, y, sx, sy, e.body)
    ensures Flow(x, y, sx + [e], sy) && Flow(y, x, sy, sx + [e])
  {
    hide Backs;
    var sx' := sx + [e];
    assert forall i :: 0 <= i < |sx'| ==> sx'[i] == if i < |sx| then sx[i] else e;
  }

  lemma OfferKeeps(x: Core, y: Core, sx: Sent, sy: Sent, e: Envelope)
    requires Inv(x, y, sx, sy) && MayOffer(x, y, sx, sy, e.body)
    ensures Inv(x, y, sx + [e], sy)
  {
    hide Self, Pairing, Flow, MayOffer;
    OfferSelf(x, y, sx, sy, e);
    OfferFlow(x, y, sx, sy, e);
  }

  /** Proposing the transfer the lock was just taken for. */
  lemma ProposeKeeps(x: Core, y: Core, sx: Sent, sy: Sent, e: Envelope)
    requires Inv(x, y, sx, sy) && e.body.TransferPropose? && Backs(x, e.body)
    requires var t := e.body.transferId;
             && x.lock == Some(t) && x.pending.None? && x.legs[t].state.Proposed?
             && t !in y.legs && Unmentioned(t, sx) && Unmentioned(t, sy)
    ensures Inv(x, y, sx + [e], sy)
  {
    MayPropose(x, y, sx, sy, e.body);
    OfferKeeps(x, y, sx, sy, e);
  }

  lemma MayPropose(x: Core, y: Core, sx: Sent, sy: Sent, b: Body)
    requires Local(x) && Backed(x, sx) && Pairing(x, y) && Pairing(y, x) && Adjusting(y, x, sy)
    requires b.TransferPropose? && Backs(x, b)
    requires var t := b.transferId;
             && x.lock == Some(t) && x.pending.None? && x.legs[t].state.Proposed?
             && t !in y.legs && Unmentioned(t, sx) && Unmentioned(t, sy)
    ensures MayOffer(x, y, sx, sy, b)
  {
    forall i | 0 <= i < |sx|
      ensures sx[i].body.ReserveAccept? && y.pending.Some? && y.pending.value.id == sx[i].body.adjustId ==>
                b.opSeq == |y.hist|
      ensures sx[i].body.TransferReceipt? && InCommit(y) && y.lock.value == sx[i].body.transferId ==>
                b.opSeq + 1 == |y.hist|
    {
      assert Backs(x, sx[i].body);
      if sx[i].body.TransferReceipt? && InCommit(y) && y.lock.value == sx[i].body.transferId {
        assert Outcome(y, x, y.lock.value);
      }
    }
  }

  /** Accepting the transfer the lock was just taken for. */
  lemma AcceptKeeps(x: Core, y: Core, sx: Sent, sy: Sent, e: Envelope)
    requires Inv(x, y, sx, sy) && e.body.TransferAccept? && Backs(x, e.body)
    requires x.lock == Some(e.body.transferId) && x.pending.None?
    ensures Inv(x, y, sx + [e], sy)
  {
    assert MayOffer(x, y, sx, sy, e.body) by {
      MayAccept(x, y, sx, sy, e.body);
    }
    OfferKeeps(x, y, sx, sy, e);
  }

  lemma MayAccept(x: Core, y: Core, sx: Sent, sy: Sent, b: Body)
    requires Local(x) && Local(y) && Backed(x, sx) && Pairing(x, y) && Pairing(y, x) && Agree(x, y)
    requires Adjusting(x, y, sx)
    requires b.TransferAccept? && Backs(x, b) && x.lock == Some(b.transferId) && x.pending.None?
    ensures MayOffer(x, y, sx, sy, b)
  {
    forall i | 0 <= i < |sx| ensures !TookLock(x, sx[i].body) {
      assert Backs(x, sx[i].body);
    }
  }
}
