/** Nothing a node did is taken back: histories, logs and final transfer states only grow. */
module NodeGrowth {
  import opened Wrappers
  import opened PoolPricing
  import opened ChannelHistory
  import opened Ledgers
  import opened TransferStates
  import opened Messages
  import opened NodeSpec
  import opened NodeInvariant

  /** Where a transfer's state may go. */
  predicate Onward(s: State, s': State) {
    && (Dead(s) || s.Settled? ==> s' == s)
    && (s.Committed? ==> s'.Committed? || s'.Settled?)
  }

  ghost predicate ContactGrows(n: NodeState, n': NodeState) {
    n.contact.Some? ==>
      && n'.contact.Some?
      && n'.contact.value.id == n.contact.value.id
      && n'.contact.value.iAmProposer == n.contact.value.iAmProposer
      && n.contact.value.history <= n'.contact.value.history
  }

  ghost predicate TransfersGrow(n: NodeState, n': NodeState) {
    forall t :: t in n.transfers ==>
      && t in n'.transfers && Onward(n.transfers[t].state, n'.transfers[t].state)
      && n'.transfers[t].(state := n.transfers[t].state, receipt := n.transfers[t].receipt) == n.transfers[t]
  }

  ghost predicate Grows(n: NodeState, n': NodeState) {
    n'.peerHost == n.peerHost && ContactGrows(n, n') && TransfersGrow(n, n') && n.book.log <= n'.book.log
  }

  lemma GrowsOn(n: NodeState, n': NodeState, n'': NodeState)
    requires Grows(n, n') && Grows(n', n'')
    ensures Grows(n, n'')
  {
  }

  lemma ExpireGrows(n: NodeState, id: Id, now: int)
    ensures Grows(n, ExpireIfDue(n, id, now))
  {
  }

  lemma ReleaseGrows(n: NodeState, now: int)
    ensures Grows(n, ReleaseIfBusyExpired(n, now))
  {
    hide ExpireIfDue;
    if n.contact.Some? && n.contact.value.busyTransfer.Some? {
      ExpireGrows(n, n.contact.value.busyTransfer.value, now);
    }
  }

  lemma {:induction false} SweepGrows(n: NodeState, ids: seq<Id>, now: int)
    ensures Grows(n, Sweep(n, ids, now))
  {
    hide ExpireIfDue, Grows;
    if ids == [] {
      SameGrows(n);
    } else {
      SweepGrows(n, ids[..|ids| - 1], now);
      ExpireGrows(Sweep(n, ids[..|ids| - 1], now), ids[|ids| - 1], now);
      GrowsOn(n, Sweep(n, ids[..|ids| - 1], now), Sweep(n, ids, now));
    }
  }

  lemma SameGrows(n: NodeState)
    ensures Grows(n, n)
  {
  }

  lemma StartGrows(n: NodeState, ctx: Ctx, from: string, to: string, src: int, id: Id)
    requires id !in n.transfers
    ensures Grows(n, StartTransfer(n, ctx, from, to, src, id).node)
  {
    hide ReleaseIfBusyExpired, PoolPrice;
    ReleaseGrows(n, ctx.now);
    ReleaseKeys(n, ctx.now);
  }

  lemma ReleaseKeys(n: NodeState, now: int)
    ensures ReleaseIfBusyExpired(n, now).transfers.Keys == n.transfers.Keys
    ensures ReleaseIfBusyExpired(n, now).book == n.book
  {
  }

  lemma AdjustReserveGrows(n: NodeState, ctx: Ctx, delta: int, id: Id)
    ensures Grows(n, AdjustReserve(n, ctx, delta, id).node)
  {
    hide ReleaseIfBusyExpired;
    ReleaseGrows(n, ctx.now);
  }

  lemma AbortGrows(n: NodeState, ctx: Ctx, id: Id)
    ensures Grows(n, AbortTransfer(n, ctx, id).node)
  {
    hide Grows, SetState, ReleaseFor, Send;
    SameGrows(n);
    if id in n.transfers && (n.transfers[id].state.Proposed? || n.transfers[id].state.Accepted?) {
      StateGrows(n, id, Aborted);
      var n1 := ReleaseFor(SetState(n, id, Aborted), id);
      SendGrows(n1, ctx, TransferAbort(id));
      GrowsOn(n, n1, Send(n1, ctx, TransferAbort(id)).node);
    }
  }

  lemma OpenCloseGrow(n: NodeState, ctx: Ctx, seed: int, id: Id)
    ensures Grows(n, OpenContact(n, ctx, seed, id).node)
    ensures Grows(n, CloseContact(n, ctx).node)
  {
  }

  lemma AppendedGrows(b: Book, tx: Tx)
    requires Appended(b, tx).Success?
    ensures b.log <= Appended(b, tx).value.log
  {
    hide NextRecord;
  }

  // ----- handlers -----

  lemma ContactProposeGrows(n: NodeState, b: Body, ctx: Ctx, autoSeed: int)
    requires b.ContactPropose? && Linked(n)
    ensures Grows(n, HandleContactPropose(n, b, ctx, autoSeed).node)
  {
    hide Appended, ApplySeed, ContactOk;
    if SeedLeg(n, ctx, autoSeed).Success? {
      AppendedGrows(n.book, TwoLegs(ctx, ContactSeed, None, Wallet(n), autoSeed, Issuance, -autoSeed));
    }
  }

  lemma SeedKeeps(c: Contact)
    ensures ApplySeed(c).id == c.id && ApplySeed(c).iAmProposer == c.iAmProposer
  {
    hide ChannelNext, Padded;
  }

  lemma SendGrows(n: NodeState, ctx: Ctx, b: Body)
    ensures Grows(n, Send(n, ctx, b).node)
  {
  }

  /** The same contact further on, beside a longer log. */
  lemma ContactOnGrows(n: NodeState, c: Contact, book: Book)
    requires n.contact.Some? && c.id == n.contact.value.id && c.iAmProposer == n.contact.value.iAmProposer
    requires n.contact.value.history <= c.history && n.book.log <= book.log
    ensures Grows(n, n.(contact := Some(c), book := book))
  {
  }

  lemma ContactAcceptGrows(n: NodeState, b: Body, ctx: Ctx)
    requires b.ContactAccept? && Linked(n)
    ensures Grows(n, HandleContactAccept(n, b, ctx).node)
  {
    hide Appended, Rooted, Reserved, ApplySeed, Grows, Send;
    SameGrows(n);
    forall code ensures Grows(n, SendError(n, ctx, code).node) {
      SendGrows(n, ctx, ErrorReply(code));
    }
    if n.contact.Some? && !n.contact.value.active {
      var c := n.contact.value.(responderSeed := b.mySeed);
      ContactOnGrows(n, c, n.book);
      var n1 := n.(contact := Some(c), book := n.book);
      SendGrows(n1, ctx, ErrorReply(Internal));
      GrowsOn(n, n1, Send(n1, ctx, ErrorReply(Internal)).node);
      if SeedLeg(n, ctx, c.proposerSeed).Success? {
        AppendedGrows(n.book, TwoLegs(ctx, ContactSeed, None, Wallet(n), c.proposerSeed, Issuance, -c.proposerSeed));
        var c' := c.(myReserveOfPeer := c.proposerSeed, peerReserveOfMe := c.responderSeed);
        SeedKeeps(c');
        ContactOnGrows(n, ApplySeed(c').(active := true), SeedLeg(n, ctx, c.proposerSeed).value);
      }
    }
  }

  lemma TakenUpGrows(n: NodeState, id: Id, t: Transfer, ctx: Ctx, b: Body)
    requires id !in n.transfers && n.contact.Some?
    ensures Grows(n, Send(n.(transfers := n.transfers[id := t], contact := Some(LockedBy(n.contact.value, id))), ctx,
                          b).node)
  {
  }

  lemma ProposeGrows(n: NodeState, b: Body, ctx: Ctx)
    requires b.TransferPropose? && b.transferId !in n.transfers
    ensures Grows(n, HandleTransferPropose(n, b, ctx).node)
  {
    hide ReleaseIfBusyExpired, PoolPrice, Grows, Send;
    var id := b.transferId;
    var n1 := ReleaseIfBusyExpired(n, ctx.now);
    ReleaseGrows(n, ctx.now);
    ReleaseKeys(n, ctx.now);
    assert id !in n1.transfers.Keys;
    forall code ensures Grows(n, Send(n, ctx, TransferReject(id, code)).node) {
      SendGrows(n, ctx, TransferReject(id, code));
    }
    forall code ensures Grows(n, Send(n1, ctx, TransferReject(id, code)).node) {
      SendGrows(n1, ctx, TransferReject(id, code));
      GrowsOn(n, n1, Send(n1, ctx, TransferReject(id, code)).node);
    }
    if n1.contact.Some? {
      var c := n1.contact.value;
      var t := Transfer(c.id, false, Accepted, b.opSeq, b.fromMember, b.toMember, b.src, b.dst, b.expires, None);
      TakenUpGrows(n1, id, t, ctx, TransferAccept(id));
      GrowsOn(n, n1, Send(n1.(transfers := n1.transfers[id := t], contact := Some(LockedBy(c, id))), ctx,
                          TransferAccept(id)).node);
    }
  }

  lemma AcceptGrows(n: NodeState, b: Body, ctx: Ctx)
    requires b.TransferAccept?
    ensures Grows(n, HandleTransferAccept(n, b, ctx).node)
  {
    hide CommitOutgoing, ExpireIfDue, Grows, Send, SetState;
    var id := b.transferId;
    SameGrows(n);
    forall code ensures Grows(n, SendError(n, ctx, code).node) {
      SendGrows(n, ctx, ErrorReply(code));
    }
    var n1 := ExpireIfDue(n, id, ctx.now);
    ExpireGrows(n, id, ctx.now);
    SendGrows(n1, ctx, TransferAbort(id));
    GrowsOn(n, n1, Send(n1, ctx, TransferAbort(id)).node);
    if id in n.transfers && n.contact.Some? && n.transfers[id].state.Proposed? {
      CommitsGrows(n, id, ctx);
    }
  }

  lemma ApplyTransferKeeps(c: Contact, id: Id, src: int, dst: int, byProposer: bool)
    ensures var c' := ApplyTransfer(c, id, src, dst, byProposer);
            && c'.id == c.id && c'.iAmProposer == c.iAmProposer && c'.active == c.active
            && c'.history == c.history + [Transferred(id, byProposer, src, dst)]
  {
    hide ChannelNext;
  }

  lemma ApplyAdjustKeeps(c: Contact, id: Id, delta: int, byProposer: bool)
    ensures var c' := ApplyAdjust(c, id, delta, byProposer);
            && c'.id == c.id && c'.iAmProposer == c.iAmProposer && c'.active == c.active
            && c'.history == c.history + [Adjusted(id, byProposer, delta)]
  {
    hide ChannelNext;
  }

  lemma CommitsGrows(n: NodeState, id: Id, ctx: Ctx)
    requires id in n.transfers && n.contact.Some? && n.transfers[id].state.Proposed?
    ensures Grows(n, CommitOutgoing(SetState(n, id, Accepted), id, ctx).node)
  {
    hide Appended, ApplyTransfer, LocalPart;
    var t, c := n.transfers[id], n.contact.value;
    var tx := TwoLegs(ctx, TransferOut, Some(id), MemberAccount(t.fromMember), -t.src, Wallet(n), t.src);
    if Appended(n.book, tx).Success? {
      AppendedGrows(n.book, tx);
    }
    ApplyTransferKeeps(c.(myReserveOfPeer := c.myReserveOfPeer + t.src, peerReserveOfMe := c.peerReserveOfMe - t.dst),
                       id, t.src, t.dst, c.iAmProposer);
  }

  lemma SettlesGrows(n: NodeState, id: Id, ctx: Ctx)
    requires id in n.transfers && n.contact.Some? && n.transfers[id].state.Accepted?
    ensures Grows(n, SettleIncoming(SetState(n, id, Committed), id, ctx).node)
  {
    hide Appended, ApplyTransfer, Grows;
    var t, c := n.transfers[id], n.contact.value;
    var tx := TwoLegs(ctx, TransferIn, Some(id), Wallet(n), -t.dst, MemberAccount(t.toMember), t.dst);
    if Appended(n.book, tx).Success? {
      AppendedGrows(n.book, tx);
    }
    ApplyTransferKeeps(c.(peerReserveOfMe := c.peerReserveOfMe + t.src, myReserveOfPeer := c.myReserveOfPeer - t.dst),
                       id, t.src, t.dst, !c.iAmProposer);
    var n' := SettleIncoming(SetState(n, id, Committed), id, ctx).node;
    assert n'.transfers == n.transfers[id := n'.transfers[id]];
    OneGrows(n, n', id);
  }

  /** Only one transfer changed, and it moved on. */
  lemma OneGrows(n: NodeState, n': NodeState, id: Id)
    requires id in n.transfers && id in n'.transfers && n'.transfers == n.transfers[id := n'.transfers[id]]
    requires Onward(n.transfers[id].state, n'.transfers[id].state)
    requires n'.transfers[id].(state := n.transfers[id].state, receipt := n.transfers[id].receipt) == n.transfers[id]
    requires n'.peerHost == n.peerHost && ContactGrows(n, n') && n.book.log <= n'.book.log
    ensures Grows(n, n')
  {
    hide ContactGrows;
  }

  lemma CommitGrows(n: NodeState, b: Body, ctx: Ctx)
    requires b.TransferCommit?
    ensures Grows(n, HandleTransferCommit(n, b, ctx).node)
  {
    hide SettleIncoming, Grows, Send, SetState;
    var id := b.transferId;
    SameGrows(n);
    forall code ensures Grows(n, SendError(n, ctx, code).node) {
      SendGrows(n, ctx, ErrorReply(code));
    }
    if id in n.transfers && n.contact.Some? && n.transfers[id].state.Accepted? {
      SettlesGrows(n, id, ctx);
    }
  }

  lemma StateGrows(n: NodeState, id: Id, s: State)
    requires id in n.transfers && Onward(n.transfers[id].state, s)
    ensures Grows(n, SetState(n, id, s)) && Grows(n, ReleaseFor(SetState(n, id, s), id))
  {
  }

  lemma ReceiptGrows(n: NodeState, b: Body, ctx: Ctx)
    requires b.TransferReceipt?
    ensures Grows(n, HandleTransferReceipt(n, b, ctx).node)
  {
    hide Grows, Send, SetState, ReleaseFor;
    SameGrows(n);
    forall code ensures Grows(n, SendError(n, ctx, code).node) {
      SendGrows(n, ctx, ErrorReply(code));
    }
    if b.transferId in n.transfers && n.transfers[b.transferId].state.Committed? {
      StateGrows(n, b.transferId, Settled);
    }
  }

  lemma EndingGrows(n: NodeState, b: Body)
    ensures b.TransferReject? ==> Grows(n, HandleTransferReject(n, b).node)
    ensures b.TransferAbort? ==> Grows(n, HandleTransferAbort(n, b).node)
  {
    hide Grows, SetState, ReleaseFor;
    SameGrows(n);
    if (b.TransferReject? || b.TransferAbort?) && b.transferId in n.transfers
       && (n.transfers[b.transferId].state.Proposed? || n.transfers[b.transferId].state.Accepted?) {
      StateGrows(n, b.transferId, Rejected);
      StateGrows(n, b.transferId, Aborted);
    }
  }

  lemma ReserveAcceptGrows(n: NodeState, b: Body, ctx: Ctx)
    requires b.ReserveAccept?
    ensures Grows(n, HandleReserveAccept(n, b, ctx).node)
  {
    hide Appended, ApplyAdjust;
    if n.contact.Some? {
      var c := n.contact.value;
      var tx := TwoLegs(ctx, TxType.ReserveAdjust, Some(b.adjustId), Wallet(n), c.pendingDelta, Treasury,
                        -c.pendingDelta);
      if Appended(n.book, tx).Success? {
        AppendedGrows(n.book, tx);
      }
      ApplyAdjustKeeps(c.(myReserveOfPeer := c.myReserveOfPeer + c.pendingDelta), b.adjustId, c.pendingDelta,
                       c.iAmProposer);
    }
  }

  lemma MirroringGrows(n: NodeState, ctx: Ctx, id: Id, delta: int)
    requires n.contact.Some?
    ensures var c := n.contact.value;
            var c' := ApplyAdjust(c.(peerReserveOfMe := c.peerReserveOfMe + delta), id, delta, !c.iAmProposer);
            Grows(n, Send(n.(contact := Some(c'.(appliedAdjusts := c'.appliedAdjusts + {id}))), ctx,
                          ReserveAccept(c.id, id)).node)
  {
    hide ApplyAdjust;
    var c := n.contact.value;
    ApplyAdjustKeeps(c.(peerReserveOfMe := c.peerReserveOfMe + delta), id, delta, !c.iAmProposer);
  }

  lemma AdjustGrows(n: NodeState, b: Body, ctx: Ctx)
    requires b.ReserveAdjust?
    ensures Grows(n, HandleReserveAdjust(n, b, ctx).node)
  {
    hide ReleaseIfBusyExpired, ApplyAdjust, Grows, Send;
    var n1 := ReleaseIfBusyExpired(n, ctx.now);
    ReleaseGrows(n, ctx.now);
    var o := HandleReserveAdjust(n, b, ctx);
    if o == SendError(n, ctx, NoContact) {
      SendGrows(n, ctx, ErrorReply(NoContact));
    } else if o == SendError(n, ctx, ContactFrozen) {
      SendGrows(n, ctx, ErrorReply(ContactFrozen));
    } else {
      forall body ensures Grows(n, Send(n1, ctx, body).node) {
        SendGrows(n1, ctx, body);
        GrowsOn(n, n1, Send(n1, ctx, body).node);
      }
      if n1.contact.Some? {
        var c := n1.contact.value;
        var c' := ApplyAdjust(c.(peerReserveOfMe := c.peerReserveOfMe + b.myDelta), b.adjustId, b.myDelta,
                              !c.iAmProposer);
        MirroringGrows(n1, ctx, b.adjustId, b.myDelta);
        GrowsOn(n, n1, Send(n1.(contact := Some(c'.(appliedAdjusts := c'.appliedAdjusts + {b.adjustId}))), ctx,
                            ReserveAccept(c.id, b.adjustId)).node);
      }
    }
  }

  /** Handling a message takes nothing back, if a proposal's identifier is new. */
  lemma RouteGrows(n: NodeState, b: Body, ctx: Ctx, autoSeed: int)
    requires Linked(n) && (b.TransferPropose? ==> b.transferId !in n.transfers)
    ensures Grows(n, Route(n, b, ctx, autoSeed).node)
  {
    hide Grows, HandleContactPropose, HandleContactAccept, HandleTransferPropose, HandleTransferAccept,
      HandleTransferReject, HandleTransferCommit, HandleTransferReceipt, HandleTransferAbort,
      HandleReserveAdjust, HandleReserveAccept, Send;
    SameGrows(n);
    match b
    case ContactPropose(_, _) => ContactProposeGrows(n, b, ctx, autoSeed);
    case ContactAccept(_, _) => ContactAcceptGrows(n, b, ctx);
    case ContactUpdate(_) => SendGrows(n, ctx, ErrorReply(NoContact));
    case ContactClose(_) => CloseGrows(n);
    case TransferPropose(_, _, _, _, _, _, _, _) => ProposeGrows(n, b, ctx);
    case TransferAccept(_) => AcceptGrows(n, b, ctx);
    case TransferReject(_, _) => EndingGrows(n, b);
    case TransferCommit(_) => CommitGrows(n, b, ctx);
    case TransferReceipt(_) => ReceiptGrows(n, b, ctx);
    case TransferAbort(_) => EndingGrows(n, b);
    case ReserveAdjust(_, _, _, _) => AdjustGrows(n, b, ctx);
    case ReserveAccept(_, _) => ReserveAcceptGrows(n, b, ctx);
    case Ping => SendGrows(n, ctx, Pong);
    case Pong =>
    case ErrorReply(_) =>
    case Unknown => SendGrows(n, ctx, ErrorReply(UnknownType));
  }

  lemma CloseGrows(n: NodeState)
    ensures Grows(n, HandleContactClose(n).node)
  {
  }
}
