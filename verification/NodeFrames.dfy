/** What handlers leave alone: the clock alone decides what expires and what commits late, and
    only the adjustment handlers touch the adjustments under way. */
module NodeFrames {
  import opened Wrappers
  import opened PoolPricing
  import opened ChannelHistory
  import opened Ledgers
  import opened TransferStates
  import opened Messages
  import opened NodeSpec
  import opened NodeInvariant

  function AppliedAt(n: NodeState): set<Id> { if n.contact.Some? then n.contact.value.appliedAdjusts else {} }

  function PendingAt(n: NodeState): Option<Id> { if n.contact.Some? then n.contact.value.pendingAdjust else None }

  predicate SameAdjusts(n: NodeState, n': NodeState) { AppliedAt(n') == AppliedAt(n) && PendingAt(n') == PendingAt(n) }

  /** What one step may make of a transfer: it expires only past its time, is committed by its
      payer only within it, and once settled never changes again, its payee's receipt included. */
  predicate Advance(n: NodeState, t: Id, s: Transfer, now: int) {
    && (t in n.transfers ==> s.expires == n.transfers[t].expires && s.outgoing == n.transfers[t].outgoing)
    && (s.state.Expired? ==> now > s.expires || (t in n.transfers && n.transfers[t].state.Expired?))
    && (s.outgoing && Spent(s.state) ==> now <= s.expires || (t in n.transfers && Spent(n.transfers[t].state)))
    && (t in n.transfers && n.transfers[t].state.Settled? ==> s == n.transfers[t])
    && (!s.outgoing && s.state.Settled? ==>
         (t in n.transfers && n.transfers[t] == s) || (s.receipt.Some? && s.receipt.value.body == TransferReceipt(t)))
  }

  ghost predicate Advances(n: NodeState, n': NodeState, now: int) {
    && n.transfers.Keys <= n'.transfers.Keys && n.lastSeq <= n'.lastSeq
    && forall t :: t in n'.transfers ==> Advance(n, t, n'.transfers[t], now)
  }

  ghost predicate Frame(n: NodeState, n': NodeState, now: int) { SameAdjusts(n, n') && Advances(n, n', now) }

  lemma FrameOn(n: NodeState, n': NodeState, n'': NodeState, now: int)
    requires Frame(n, n', now) && Frame(n', n'', now)
    ensures Frame(n, n'', now)
  {
    forall t | t in n''.transfers ensures Advance(n, t, n''.transfers[t], now) {
      assert t in n.transfers.Keys ==> t in n'.transfers;
      if t in n'.transfers {
        assert Advance(n, t, n'.transfers[t], now) && Advance(n', t, n''.transfers[t], now);
      }
    }
  }

  /** Only the contact's other fields, the book or the positions differ. */
  lemma SameFrame(n: NodeState, n': NodeState, now: int)
    requires n'.transfers == n.transfers && SameAdjusts(n, n') && n'.lastSeq == n.lastSeq
    ensures Frame(n, n', now)
  {
  }

  lemma SendFrame(n: NodeState, ctx: Ctx, b: Body)
    ensures Frame(n, Send(n, ctx, b).node, ctx.now)
  {
  }

  lemma ExpireFrame(n: NodeState, id: Id, now: int)
    ensures Frame(n, ExpireIfDue(n, id, now), now)
  {
  }

  lemma ReleaseFrame(n: NodeState, now: int)
    ensures Frame(n, ReleaseIfBusyExpired(n, now), now)
    ensures ReleaseIfBusyExpired(n, now).transfers.Keys == n.transfers.Keys
  {
    SameFrame(n, n, now);
    if n.contact.Some? && n.contact.value.busy && n.contact.value.busyTransfer.Some? {
      ExpireFrame(n, n.contact.value.busyTransfer.value, now);
    }
  }

  lemma {:induction false} SweepFrame(n: NodeState, ids: seq<Id>, now: int)
    ensures Frame(n, Sweep(n, ids, now), now)
  {
    hide ExpireIfDue, Frame;
    if ids == [] {
      SameFrame(n, n, now);
    } else {
      SweepFrame(n, ids[..|ids| - 1], now);
      ExpireFrame(Sweep(n, ids[..|ids| - 1], now), ids[|ids| - 1], now);
      FrameOn(n, Sweep(n, ids[..|ids| - 1], now), Sweep(n, ids, now), now);
    }
  }

  // ----- operations -----

  lemma TakenUpFrame(n: NodeState, id: Id, t: Transfer, ctx: Ctx, b: Body)
    requires id !in n.transfers && n.contact.Some? && (t.state.Proposed? || t.state.Accepted?)
    ensures Frame(n, Send(n.(transfers := n.transfers[id := t], contact := Some(LockedBy(n.contact.value, id))), ctx,
                          b).node, ctx.now)
  {
  }

  lemma StartFrame(n: NodeState, ctx: Ctx, from: string, to: string, src: int, id: Id)
    requires id !in n.transfers
    ensures Frame(n, StartTransfer(n, ctx, from, to, src, id).node, ctx.now)
  {
    hide ReleaseIfBusyExpired, PoolPrice, Frame, Send;
    var n1 := ReleaseIfBusyExpired(n, ctx.now);
    ReleaseFrame(n, ctx.now);
    SameFrame(n, n, ctx.now);
    assert id !in n1.transfers.Keys;
    var n' := StartTransfer(n, ctx, from, to, src, id).node;
    if n' != n && n' != n1 && n1.contact.Some? && PriceOutgoing(n1.contact.value, src).Success? {
      var c := n1.contact.value;
      var dst := PriceOutgoing(c, src).value;
      var t := Transfer(c.id, true, Proposed, c.opSeq, from, to, src, dst, ctx.now + HOUR, None);
      TakenUpFrame(n1, id, t, ctx, TransferPropose(id, c.id, c.opSeq, from, to, src, dst, t.expires));
      FrameOn(n, n1, n', ctx.now);
    }
  }

  lemma StateFrame(n: NodeState, id: Id, s: State, now: int)
    requires id in n.transfers
    requires !n.transfers[id].state.Settled?
             && (s.Settled? ==> n.transfers[id].outgoing && n.transfers[id].state.Committed?)
    requires s.Expired? ==> now > n.transfers[id].expires
    requires s.Committed? && n.transfers[id].outgoing ==> now <= n.transfers[id].expires
    ensures Frame(n, SetState(n, id, s), now) && Frame(n, ReleaseFor(SetState(n, id, s), id), now)
  {
  }

  lemma AbortFrame(n: NodeState, ctx: Ctx, id: Id)
    ensures Frame(n, AbortTransfer(n, ctx, id).node, ctx.now)
  {
    hide Frame, SetState, ReleaseFor, Send;
    SameFrame(n, n, ctx.now);
    if id in n.transfers && (n.transfers[id].state.Proposed? || n.transfers[id].state.Accepted?) {
      StateFrame(n, id, Aborted, ctx.now);
      var n1 := ReleaseFor(SetState(n, id, Aborted), id);
      SendFrame(n1, ctx, TransferAbort(id));
      FrameOn(n, n1, Send(n1, ctx, TransferAbort(id)).node, ctx.now);
    }
  }

  lemma OpenCloseFrame(n: NodeState, ctx: Ctx, seed: int, id: Id)
    ensures Frame(n, OpenContact(n, ctx, seed, id).node, ctx.now)
    ensures Frame(n, CloseContact(n, ctx).node, ctx.now)
  {
  }

  // ----- handlers -----

  lemma ContactProposeFrame(n: NodeState, b: Body, ctx: Ctx, autoSeed: int)
    requires b.ContactPropose?
    ensures Frame(n, HandleContactPropose(n, b, ctx, autoSeed).node, ctx.now)
  {
    hide Appended, ChannelNext, Padded;
  }

  lemma ContactAcceptFrame(n: NodeState, b: Body, ctx: Ctx)
    requires b.ContactAccept?
    ensures Frame(n, HandleContactAccept(n, b, ctx).node, ctx.now)
  {
    hide Appended, ChannelNext, Padded;
  }

  lemma ProposeFrame(n: NodeState, b: Body, ctx: Ctx)
    requires b.TransferPropose? && b.transferId !in n.transfers
    ensures Frame(n, HandleTransferPropose(n, b, ctx).node, ctx.now)
  {
    hide ReleaseIfBusyExpired, PoolPrice, Frame, Send;
    var id := b.transferId;
    var n1 := ReleaseIfBusyExpired(n, ctx.now);
    ReleaseFrame(n, ctx.now);
    assert id !in n1.transfers.Keys;
    forall code ensures Frame(n, Send(n, ctx, TransferReject(id, code)).node, ctx.now) {
      SendFrame(n, ctx, TransferReject(id, code));
    }
    forall code ensures Frame(n, Send(n1, ctx, TransferReject(id, code)).node, ctx.now) {
      SendFrame(n1, ctx, TransferReject(id, code));
      FrameOn(n, n1, Send(n1, ctx, TransferReject(id, code)).node, ctx.now);
    }
    if n1.contact.Some? {
      var c := n1.contact.value;
      var t := Transfer(c.id, false, Accepted, b.opSeq, b.fromMember, b.toMember, b.src, b.dst, b.expires, None);
      TakenUpFrame(n1, id, t, ctx, TransferAccept(id));
      FrameOn(n, n1, Send(n1.(transfers := n1.transfers[id := t], contact := Some(LockedBy(c, id))), ctx,
                          TransferAccept(id)).node, ctx.now);
    }
  }

  lemma ErrorFrames(n: NodeState, ctx: Ctx)
    ensures Frame(n, n, ctx.now) && forall code :: Frame(n, SendError(n, ctx, code).node, ctx.now)
  {
    SameFrame(n, n, ctx.now);
    forall code ensures Frame(n, SendError(n, ctx, code).node, ctx.now) {
      SendFrame(n, ctx, ErrorReply(code));
    }
  }

  lemma ApplyTransferAdjusts(c: Contact, id: Id, src: int, dst: int, byProposer: bool)
    ensures var c' := ApplyTransfer(c, id, src, dst, byProposer);
            c'.appliedAdjusts == c.appliedAdjusts && c'.pendingAdjust == c.pendingAdjust
  {
    hide ChannelNext, Padded;
  }

  lemma ApplyAdjustAdjusts(c: Contact, id: Id, delta: int, byProposer: bool)
    ensures var c' := ApplyAdjust(c, id, delta, byProposer);
            c'.appliedAdjusts == c.appliedAdjusts && c'.pendingAdjust == c.pendingAdjust && c'.opSeq == c.opSeq + 1
  {
    hide ChannelNext, Padded;
  }

  lemma CommitsFrame(n: NodeState, id: Id, ctx: Ctx)
    requires id in n.transfers && n.contact.Some? && n.transfers[id].state.Proposed?
             && ctx.now <= n.transfers[id].expires
    ensures Frame(n, CommitOutgoing(SetState(n, id, Accepted), id, ctx).node, ctx.now)
  {
    hide Appended, ApplyTransfer;
    var t, c := n.transfers[id], n.contact.value;
    ApplyTransferAdjusts(c.(myReserveOfPeer := c.myReserveOfPeer + t.src, peerReserveOfMe := c.peerReserveOfMe - t.dst),
                         id, t.src, t.dst, c.iAmProposer);
  }

  lemma AcceptFrame(n: NodeState, b: Body, ctx: Ctx)
    requires b.TransferAccept?
    ensures Frame(n, HandleTransferAccept(n, b, ctx).node, ctx.now)
  {
    hide CommitOutgoing, ExpireIfDue, Frame, Send, SetState;
    var id := b.transferId;
    ErrorFrames(n, ctx);
    var n1 := ExpireIfDue(n, id, ctx.now);
    ExpireFrame(n, id, ctx.now);
    SendFrame(n1, ctx, TransferAbort(id));
    FrameOn(n, n1, Send(n1, ctx, TransferAbort(id)).node, ctx.now);
    if id in n.transfers && n.contact.Some? && n.transfers[id].state.Proposed? && !Due(n, id, ctx.now) {
      CommitsFrame(n, id, ctx);
    }
  }

  lemma SettlesFrame(n: NodeState, id: Id, ctx: Ctx)
    requires id in n.transfers && n.contact.Some? && n.transfers[id].state.Accepted? && !n.transfers[id].outgoing
    ensures Frame(n, SettleIncoming(SetState(n, id, Committed), id, ctx).node, ctx.now)
  {
    hide Appended, ApplyTransfer;
    var t, c := n.transfers[id], n.contact.value;
    ApplyTransferAdjusts(c.(peerReserveOfMe := c.peerReserveOfMe + t.src, myReserveOfPeer := c.myReserveOfPeer - t.dst),
                         id, t.src, t.dst, !c.iAmProposer);
  }

  lemma CommitFrame(n: NodeState, b: Body, ctx: Ctx)
    requires b.TransferCommit?
    ensures Frame(n, HandleTransferCommit(n, b, ctx).node, ctx.now)
  {
    hide SettleIncoming, Frame, Send, SetState;
    var id := b.transferId;
    ErrorFrames(n, ctx);
    if id in n.transfers && n.contact.Some? && n.transfers[id].state.Accepted? && !n.transfers[id].outgoing {
      SettlesFrame(n, id, ctx);
    }
  }

  lemma ReceiptFrame(n: NodeState, b: Body, ctx: Ctx)
    requires b.TransferReceipt?
    ensures Frame(n, HandleTransferReceipt(n, b, ctx).node, ctx.now)
  {
    hide Frame, Send, SetState, ReleaseFor;
    ErrorFrames(n, ctx);
    if b.transferId in n.transfers && n.transfers[b.transferId].outgoing && n.transfers[b.transferId].state.Committed? {
      StateFrame(n, b.transferId, Settled, ctx.now);
    }
  }

  lemma EndingFrame(n: NodeState, b: Body, now: int)
    ensures b.TransferReject? ==> Frame(n, HandleTransferReject(n, b).node, now)
    ensures b.TransferAbort? ==> Frame(n, HandleTransferAbort(n, b).node, now)
  {
    hide Frame, SetState, ReleaseFor;
    SameFrame(n, n, now);
    if (b.TransferReject? || b.TransferAbort?) && b.transferId in n.transfers
      && !n.transfers[b.transferId].state.Settled? {
      StateFrame(n, b.transferId, Rejected, now);
      StateFrame(n, b.transferId, Aborted, now);
    }
  }

  // ----- adjustments -----

  /** Proposing an adjustment enters a pending one where there was none busy. */
  lemma AdjustReserveFrame(n: NodeState, ctx: Ctx, delta: int, id: Id)
    ensures var n' := AdjustReserve(n, ctx, delta, id).node;
            && Advances(n, n', ctx.now) && AppliedAt(n') == AppliedAt(n)
            && (PendingAt(n') == PendingAt(n)
                || (PendingAt(n') == Some(id) && AdjustReserve(n, ctx, delta, id).ok
                    && ReleaseIfBusyExpired(n, ctx.now).contact.Some?
                    && !ReleaseIfBusyExpired(n, ctx.now).contact.value.busy))
  {
    hide ReleaseIfBusyExpired, Advance;
    ReleaseFrame(n, ctx.now);
    SameFrame(n, n, ctx.now);
  }

  predicate MirrorsAt(n: NodeState, b: Body, n': NodeState)
    requires b.ReserveAdjust?
  {
    && n.contact.Some? && n'.contact.Some? && b.adjustId !in AppliedAt(n)
    && AppliedAt(n') == AppliedAt(n) + {b.adjustId}
    && b.opSeq == n.contact.value.opSeq && n'.contact.value.opSeq == b.opSeq + 1
  }

  lemma ReleaseOpSeq(n: NodeState, now: int)
    ensures var n' := ReleaseIfBusyExpired(n, now);
            (n'.contact.Some? <==> n.contact.Some?)
            && (n.contact.Some? ==> n'.contact.value.opSeq == n.contact.value.opSeq)
  {
  }

  lemma MirroringFrame(n: NodeState, ctx: Ctx, id: Id, delta: int)
    requires n.contact.Some?
    ensures var c := n.contact.value;
            var c' := ApplyAdjust(c.(peerReserveOfMe := c.peerReserveOfMe + delta), id, delta, !c.iAmProposer);
            var n' := Send(n.(contact := Some(c'.(appliedAdjusts := c'.appliedAdjusts + {id}))), ctx,
                           ReserveAccept(c.id, id)).node;
            && Advances(n, n', ctx.now) && PendingAt(n') == PendingAt(n) && AppliedAt(n') == AppliedAt(n) + {id}
            && n'.contact.Some? && n'.contact.value.opSeq == c.opSeq + 1
  {
    hide ApplyAdjust;
    var c := n.contact.value;
    ApplyAdjustAdjusts(c.(peerReserveOfMe := c.peerReserveOfMe + delta), id, delta, !c.iAmProposer);
  }

  lemma AdvancesOn(n: NodeState, n': NodeState, n'': NodeState, now: int)
    requires Frame(n, n', now) && Advances(n', n'', now)
    ensures Advances(n, n'', now)
  {
    var m := n''.(contact := n'.contact);
    assert Frame(n', m, now);
    FrameOn(n, n', m, now);
    forall t | t in n''.transfers ensures Advance(n, t, n''.transfers[t], now) {
      assert Advance(n, t, m.transfers[t], now);
    }
  }

  /** Answering one applies at most that one, and only at the operation number it names. */
  lemma ReserveAdjustFrame(n: NodeState, b: Body, ctx: Ctx)
    requires b.ReserveAdjust?
    ensures var n' := HandleReserveAdjust(n, b, ctx).node;
            && Advances(n, n', ctx.now) && PendingAt(n') == PendingAt(n)
            && (AppliedAt(n') == AppliedAt(n) || MirrorsAt(n, b, n'))
  {
    hide ReleaseIfBusyExpired, ApplyAdjust, Advances, Send;
    var n1 := ReleaseIfBusyExpired(n, ctx.now);
    ReleaseFrame(n, ctx.now);
    ReleaseOpSeq(n, ctx.now);
    var o := HandleReserveAdjust(n, b, ctx);
    if o == SendError(n, ctx, NoContact) {
      SendFrame(n, ctx, ErrorReply(NoContact));
    } else if o == SendError(n, ctx, ContactFrozen) {
      SendFrame(n, ctx, ErrorReply(ContactFrozen));
    } else {
      forall body ensures Frame(n, Send(n1, ctx, body).node, ctx.now) {
        SendFrame(n1, ctx, body);
        FrameOn(n, n1, Send(n1, ctx, body).node, ctx.now);
      }
      if n1.contact.Some? {
        MirroringFrame(n1, ctx, b.adjustId, b.myDelta);
        var c := n1.contact.value;
        var c' := ApplyAdjust(c.(peerReserveOfMe := c.peerReserveOfMe + b.myDelta), b.adjustId, b.myDelta,
                              !c.iAmProposer);
        AdvancesOn(n, n1, Send(n1.(contact := Some(c'.(appliedAdjusts := c'.appliedAdjusts + {b.adjustId}))), ctx,
                               ReserveAccept(c.id, b.adjustId)).node, ctx.now);
      }
    }
  }

  /** An acceptance clears the pending adjustment it names, and nothing else. */
  lemma ReserveAcceptFrame(n: NodeState, b: Body, ctx: Ctx)
    requires b.ReserveAccept?
    ensures var n' := HandleReserveAccept(n, b, ctx).node;
            && Advances(n, n', ctx.now) && AppliedAt(n') == AppliedAt(n)
            && (PendingAt(n') == PendingAt(n) || PendingAt(n) == Some(b.adjustId))
  {
    hide Appended, ApplyAdjust;
    if n.contact.Some? {
      var c := n.contact.value;
      ApplyAdjustAdjusts(c.(myReserveOfPeer := c.myReserveOfPeer + c.pendingDelta), b.adjustId, c.pendingDelta,
                         c.iAmProposer);
    }
  }

  // ----- any message -----

  /** What a message may do to the adjustments under way. */
  predicate AdjustsBy(n: NodeState, b: Body, n': NodeState) {
    && (AppliedAt(n') == AppliedAt(n) || (b.ReserveAdjust? && MirrorsAt(n, b, n')))
    && (PendingAt(n') == PendingAt(n) || (b.ReserveAccept? && PendingAt(n) == Some(b.adjustId)))
  }

  lemma RouteFrame(n: NodeState, b: Body, ctx: Ctx, autoSeed: int)
    requires b.TransferPropose? ==> b.transferId !in n.transfers
    ensures var n' := Route(n, b, ctx, autoSeed).node; Advances(n, n', ctx.now) && AdjustsBy(n, b, n')
  {
    hide HandleContactPropose, HandleContactAccept, HandleTransferPropose, HandleTransferAccept, HandleTransferReject,
      HandleTransferCommit, HandleTransferReceipt, HandleTransferAbort, HandleReserveAdjust, HandleReserveAccept,
      Send, Advances;
    ErrorFrames(n, ctx);
    match b
    case ContactPropose(_, _) => ContactProposeFrame(n, b, ctx, autoSeed);
    case ContactAccept(_, _) => ContactAcceptFrame(n, b, ctx);
    case ContactUpdate(_) =>
    case ContactClose(_) => SameFrame(n, HandleContactClose(n).node, ctx.now);
    case TransferPropose(_, _, _, _, _, _, _, _) => ProposeFrame(n, b, ctx);
    case TransferAccept(_) => AcceptFrame(n, b, ctx);
    case TransferReject(_, _) => EndingFrame(n, b, ctx.now);
    case TransferCommit(_) => CommitFrame(n, b, ctx);
    case TransferReceipt(_) => ReceiptFrame(n, b, ctx);
    case TransferAbort(_) => EndingFrame(n, b, ctx.now);
    case ReserveAdjust(_, _, _, _) => ReserveAdjustFrame(n, b, ctx);
    case ReserveAccept(_, _) => ReserveAcceptFrame(n, b, ctx);
    case Ping => SendFrame(n, ctx, Pong);
    case Pong =>
    case ErrorReply(_) =>
    case Unknown =>
  }

  // ----- who acknowledges an adjustment -----

  /** A newly sent acknowledgement of an adjustment. */
  predicate Acknowledges(n: NodeState, o: Outcome, id: Id) {
    o.node.outSeq != n.outSeq && o.out.Some? && o.out.value.body.ReserveAccept? && o.out.value.body.adjustId == id
  }

  lemma OthersNeverAcknowledge(n: NodeState, b: Body, ctx: Ctx, id: Id)
    ensures b.TransferPropose? ==> !Acknowledges(n, HandleTransferPropose(n, b, ctx), id)
    ensures b.TransferReceipt? ==> !Acknowledges(n, HandleTransferReceipt(n, b, ctx), id)
    ensures b.TransferReject? ==> !Acknowledges(n, HandleTransferReject(n, b), id)
    ensures b.TransferAbort? ==> !Acknowledges(n, HandleTransferAbort(n, b), id)
    ensures b.ReserveAccept? ==> !Acknowledges(n, HandleReserveAccept(n, b, ctx), id)
    ensures b.ContactAccept? ==> !Acknowledges(n, HandleContactAccept(n, b, ctx), id)
  {
    hide ReleaseIfBusyExpired, ApplyAdjust, ApplySeed, Appended, SetState, ReleaseFor, PoolPrice;
  }

  lemma PaymentsNeverAcknowledge(n: NodeState, b: Body, ctx: Ctx, autoSeed: int, id: Id)
    ensures b.TransferAccept? ==> !Acknowledges(n, HandleTransferAccept(n, b, ctx), id)
    ensures b.TransferCommit? ==> !Acknowledges(n, HandleTransferCommit(n, b, ctx), id)
    ensures b.ContactPropose? ==> !Acknowledges(n, HandleContactPropose(n, b, ctx, autoSeed), id)
  {
    hide ApplyTransfer, ApplySeed, Appended, ExpireIfDue;
  }

  /** Only the proposal of an adjustment is ever answered by its acknowledgement. */
  lemma OnlyProposalsAcknowledged(n: NodeState, b: Body, ctx: Ctx, autoSeed: int, id: Id)
    requires Acknowledges(n, Route(n, b, ctx, autoSeed), id)
    ensures b.ReserveAdjust? && b.adjustId == id
  {
    hide HandleContactPropose, HandleContactAccept, HandleTransferPropose, HandleTransferAccept, HandleTransferReject,
      HandleTransferCommit, HandleTransferReceipt, HandleTransferAbort, HandleReserveAccept, ApplyAdjust,
      ReleaseIfBusyExpired;
    OthersNeverAcknowledge(n, b, ctx, id);
    PaymentsNeverAcknowledge(n, b, ctx, autoSeed, id);
  }
}
