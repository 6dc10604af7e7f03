/** When each request is taken and what it gets otherwise: the exact condition for every answer of
    one node, whatever the message says. */
module NodeAnswers {
  import opened Wrappers
  import opened PoolPricing
  import opened ChannelHistory
  import opened Ledgers
  import opened TransferStates
  import opened Messages
  import opened NodeSpec
  import opened NodeFrames
  import opened NodeShut
  import opened NodeMoney

  // ----- the lock -----

  /** The lock is held by a transfer of this contact that is still open past its time. */
  predicate Overstayed(n: NodeState, now: int) {
    && n.contact.Some? && n.contact.value.busy && n.contact.value.busyTransfer.Some?
    && var id := n.contact.value.busyTransfer.value;
       && id in n.transfers && (n.transfers[id].state.Proposed? || n.transfers[id].state.Accepted?)
       && now > n.transfers[id].expires && n.transfers[id].contactId == n.contact.value.id
  }

  /** Nothing is under way on the contact, or only what has overstayed. */
  predicate FreeAt(n: NodeState, now: int) {
    n.contact.Some? && (!n.contact.value.busy || Overstayed(n, now))
  }

  /** The same but for the transfers, the lock and the sending. */
  predicate OnlyLock(n: NodeState, n': NodeState) {
    && n'.contact.Some? == n.contact.Some? && n'.book == n.book && n'.members == n.members
    && n'.seen == n.seen && n'.lastSeq == n.lastSeq && n'.replies == n.replies && n'.peerHost == n.peerHost
    && (n.contact.Some? ==> n'.contact.value.(busy := n.contact.value.busy,
                                              busyTransfer := n.contact.value.busyTransfer) == n.contact.value)
  }

  /** One transfer ends, gives up the lock if it holds it, and nothing else changes but the sending. */
  predicate Ended(n: NodeState, id: Id, s: State, n': NodeState) {
    && id in n.transfers && OnlyLock(n, n') && n'.transfers == n.transfers[id := n.transfers[id].(state := s)]
    && (n.contact.Some? && n.contact.value.id == n.transfers[id].contactId ==>
         if n.contact.value.busyTransfer == Some(id)
         then !n'.contact.value.busy && n'.contact.value.busyTransfer.None? else n'.contact == n.contact)
  }

  lemma EndsOne(n: NodeState, id: Id, s: State)
    requires id in n.transfers && OwnsContact(n, n.transfers[id].contactId)
    ensures var n' := ReleaseFor(SetState(n, id, s), id); Ended(n, id, s, n') && n'.outSeq == n.outSeq
  {
  }

  lemma ExpiresOne(n: NodeState, id: Id, now: int)
    ensures var n' := ExpireIfDue(n, id, now);
            && n'.outSeq == n.outSeq && OnlyLock(n, n') && n'.transfers.Keys == n.transfers.Keys
            && if Due(n, id, now) && OwnsContact(n, n.transfers[id].contactId) then Ended(n, id, Expired, n')
               else n'.contact == n.contact
  {
    hide ReleaseFor;
    if Due(n, id, now) && OwnsContact(n, n.transfers[id].contactId) {
      EndsOne(n, id, Expired);
    }
  }

  /** An overstayed lock is cleared and its transfer expired; any other state stays, except that a
      due transfer of another contact expires without giving up the lock. */
  lemma ReleasesExactly(n: NodeState, now: int)
    ensures var n' := ReleaseIfBusyExpired(n, now);
            && OnlyLock(n, n') && n'.outSeq == n.outSeq && n'.transfers.Keys == n.transfers.Keys
            && (FreeAt(n, now) <==> n'.contact.Some? && !n'.contact.value.busy)
            && (Overstayed(n, now) ==>
                 var id := n.contact.value.busyTransfer.value;
                 n'.contact.value.busyTransfer.None?
                 && n'.transfers == n.transfers[id := n.transfers[id].(state := Expired)])
            && (n.contact.Some? && !n.contact.value.busy ==> n' == n)
  {
    hide ExpireIfDue;
    if n.contact.Some? && n.contact.value.busyTransfer.Some? {
      ExpiresOne(n, n.contact.value.busyTransfer.value, now);
    }
  }

  predicate OpenAt(n: NodeState) {
    n.contact.Some? && n.contact.value.active && !n.contact.value.closed && !n.contact.value.diverged
  }

  // ----- the payer -----

  /** What a payment needs: an open, free contact, a positive amount, a member of the node who has
      that much, and a price. */
  predicate MayStart(n: NodeState, name: string, src: int, now: int) {
    && OpenAt(n) && FreeAt(n, now) && src > 0 && name in n.members && Get(n.book.balances, Member(name)) >= src
    && PoolPrice(n.contact.value.myReserveOfPeer, n.contact.value.peerReserveOfMe, src).Success?
  }

  /** What a started payment leaves: a record with the terms, for one hour, the lock, and a proposal
      that says the same. */
  predicate Starts(n: NodeState, ctx: Ctx, from: string, to: string, src: int, id: Id, d: Done) {
    && n.contact.Some? && d.node.contact.Some? && OnlyLock(n, d.node) && d.out.Some?
    && var c := n.contact.value;
       var price := PoolPrice(c.myReserveOfPeer, c.peerReserveOfMe, src);
       && price.Success?
       && d.node.contact.value.busy && d.node.contact.value.busyTransfer == Some(id)
       && id in d.node.transfers
       && d.node.transfers[id] == Transfer(c.id, true, Proposed, c.opSeq, from, to, src, price.value, ctx.now + 3600,
                                           None)
       && d.out.value.body == TransferPropose(id, c.id, c.opSeq, from, to, src, price.value, ctx.now + 3600)
       && d.node.outSeq == n.outSeq + 1 && d.out.value.seqNo == n.outSeq + 1
  }

  /** A payment starts exactly if it may, for a payer named with or without the host; refused, it
      sends nothing, takes no transfer up and books nothing. */
  lemma StartsExactly(n: NodeState, ctx: Ctx, from: string, to: string, src: int, id: Id, name: string)
    requires Names(from, name)
    ensures var d := StartTransfer(n, ctx, from, to, src, id);
            && (d.ok <==> MayStart(n, name, src, ctx.now))
            && (d.ok ==> Starts(n, ctx, from, to, src, id, d))
            && (!d.ok ==> d.out.None? && OnlyLock(n, d.node) && d.node.transfers.Keys == n.transfers.Keys)
  {
    hide ReleaseIfBusyExpired, PoolPrice, LocalPart, FreeAt, Overstayed, Names;
    ReleasesExactly(n, ctx.now);
    LocalPartOf(from, name);
  }

  /** A payment of more than the member has is refused. */
  lemma NoOverdraft(n: NodeState, ctx: Ctx, from: string, to: string, src: int, id: Id, name: string)
    requires Names(from, name) && src > Get(n.book.balances, Member(name))
    ensures !StartTransfer(n, ctx, from, to, src, id).ok
  {
    hide StartTransfer, Names, FreeAt, PoolPrice, Starts;
    StartsExactly(n, ctx, from, to, src, id, name);
  }

  /** The payer's own abort: it takes exactly an outgoing proposal or acceptance, ends it, frees the
      lock it holds and tells the peer. */
  lemma AbortsExactly(n: NodeState, ctx: Ctx, id: Id)
    ensures var d := AbortTransfer(n, ctx, id);
            && (d.ok <==> id in n.transfers && n.transfers[id].outgoing
                          && (n.transfers[id].state.Proposed? || n.transfers[id].state.Accepted?))
            && (!d.ok ==> d == Done(n, None, false))
            && (d.ok ==> Ended(n, id, Aborted, d.node)
                         && (OwnsContact(n, n.transfers[id].contactId) ==>
                              d.out.Some? && d.out.value.body == TransferAbort(id)))
  {
    hide ReleaseFor, SetState, Ended;
    if id in n.transfers {
      if OwnsContact(n, n.transfers[id].contactId) {
        EndsOne(n, id, Aborted);
        SendsEnded(n, id, Aborted, ReleaseFor(SetState(n, id, Aborted), id), ctx, TransferAbort(id));
      } else {
        EndsElsewhere(n, id, Aborted);
      }
    }
  }

  lemma EndsElsewhere(n: NodeState, id: Id, s: State)
    requires id in n.transfers && !OwnsContact(n, n.transfers[id].contactId)
    ensures Ended(n, id, s, SetState(n, id, s))
  {
  }

  lemma SendsEnded(n: NodeState, id: Id, s: State, n': NodeState, ctx: Ctx, b: Body)
    requires Ended(n, id, s, n')
    ensures Ended(n, id, s, Send(n', ctx, b).node)
  {
  }

  // ----- the payee -----

  /** What a proposal gets: the first reason that applies, in this order, or acceptance. */
  function Reason(n: NodeState, b: Body, name: string, now: int): Option<RejectCode>
    requires b.TransferPropose?
  {
    if n.contact.None? || !n.contact.value.active || n.contact.value.closed then Some(UnknownContact)
    else if n.contact.value.diverged then Some(Frozen)
    else if !FreeAt(n, now) then Some(Busy)
    else if b.opSeq != n.contact.value.opSeq then Some(StalePool)
    else if name !in n.members then Some(UnknownMember)
    else if b.src <= 0 then Some(Malformed)
    else
      match PoolPrice(n.contact.value.peerReserveOfMe, n.contact.value.myReserveOfPeer, b.src)
      case Failure(_) => Some(BadPrice)
      case Success(want) => if want == b.dst then None else Some(PriceMismatch)
  }

  /** What an accepted proposal leaves: a record with the terms it named, the lock, the acceptance. */
  predicate TakesUp(n: NodeState, b: Body, o: Outcome)
    requires b.TransferPropose?
  {
    && n.contact.Some? && o.node.contact.Some? && OnlyLock(n, o.node)
    && o.node.contact.value.busy && o.node.contact.value.busyTransfer == Some(b.transferId)
    && b.transferId in o.node.transfers
    && o.node.transfers[b.transferId] == Transfer(n.contact.value.id, false, Accepted, b.opSeq, b.fromMember,
                                                  b.toMember, b.src, b.dst, b.expires, None)
    && o.out.Some? && o.out.value.body == TransferAccept(b.transferId)
  }

  lemma TakenProposal(n: NodeState, b: Body, ctx: Ctx)
    requires b.TransferPropose? && Reason(n, b, LocalPart(b.toMember), ctx.now).None?
    ensures var o := HandleTransferPropose(n, b, ctx);
            TakesUp(n, b, o) && o.out.value.seqNo == n.outSeq + 1 && o.node.outSeq == n.outSeq + 1
  {
    hide ReleaseIfBusyExpired, PoolPrice, LocalPart, FreeAt, Overstayed;
    ReleasesExactly(n, ctx.now);
  }

  lemma SendsOnlyLock(n: NodeState, n': NodeState, ctx: Ctx, b: Body)
    requires OnlyLock(n, n') && n'.outSeq == n.outSeq && n'.transfers.Keys == n.transfers.Keys
    ensures var o := Send(n', ctx, b);
            && OnlyLock(n, o.node) && o.node.outSeq == n.outSeq + 1 && o.node.transfers.Keys == n.transfers.Keys
            && o.out.Some? && o.out.value.seqNo == n.outSeq + 1 && o.out.value.body == b
  {
  }

  lemma RefusedProposal(n: NodeState, b: Body, ctx: Ctx)
    requires b.TransferPropose? && Reason(n, b, LocalPart(b.toMember), ctx.now).Some?
    ensures var code := Reason(n, b, LocalPart(b.toMember), ctx.now).value;
            var o := HandleTransferPropose(n, b, ctx);
            && o.out.Some? && o.out.value.seqNo == n.outSeq + 1 && o.node.outSeq == n.outSeq + 1
            && o.out.value.body == TransferReject(b.transferId, code) && OnlyLock(n, o.node)
            && o.node.transfers.Keys == n.transfers.Keys
  {
    hide ReleaseIfBusyExpired, PoolPrice, LocalPart, FreeAt, Overstayed, OnlyLock, Send;
    var code := Reason(n, b, LocalPart(b.toMember), ctx.now).value;
    SameLock(n);
    ReleasesExactly(n, ctx.now);
    ReleasedContact(n, ReleaseIfBusyExpired(n, ctx.now));
    SendsOnlyLock(n, n, ctx, TransferReject(b.transferId, code));
    SendsOnlyLock(n, ReleaseIfBusyExpired(n, ctx.now), ctx, TransferReject(b.transferId, code));
  }

  lemma SameLock(n: NodeState)
    ensures OnlyLock(n, n)
  {
  }

  lemma ReleasedContact(n: NodeState, n': NodeState)
    requires OnlyLock(n, n')
    ensures n'.members == n.members && n'.contact.Some? == n.contact.Some?
    ensures n.contact.Some? ==>
              var c, c' := n.contact.value, n'.contact.value;
              && c'.opSeq == c.opSeq
              && c'.peerReserveOfMe == c.peerReserveOfMe && c'.myReserveOfPeer == c.myReserveOfPeer
  {
  }

  /** A proposal is taken exactly if nothing speaks against it, for a payee named with or without the
      host; otherwise it gets the first reason and no transfer is taken up. */
  lemma ProposalExactly(n: NodeState, b: Body, ctx: Ctx, name: string)
    requires b.TransferPropose? && Names(b.toMember, name)
    ensures var o := HandleTransferPropose(n, b, ctx);
            && o.out.Some? && o.out.value.seqNo == n.outSeq + 1 && o.node.outSeq == n.outSeq + 1
            && match Reason(n, b, name, ctx.now)
               case None => TakesUp(n, b, o)
               case Some(code) => o.out.value.body == TransferReject(b.transferId, code) && OnlyLock(n, o.node)
                                  && o.node.transfers.Keys == n.transfers.Keys
  {
    hide HandleTransferPropose, LocalPart, Names, Reason;
    LocalPartOf(b.toMember, name);
    if Reason(n, b, name, ctx.now).None? {
      TakenProposal(n, b, ctx);
    } else {
      RefusedProposal(n, b, ctx);
    }
  }

  // ----- ends -----

  /** A rejection ends exactly a standing outgoing proposal of this contact; anything else it names
      is left as it is.  Neither answers anything. */
  lemma RejectsExactly(n: NodeState, b: Body)
    requires b.TransferReject?
    ensures var id := b.transferId;
            var o := HandleTransferReject(n, b);
            && o.out.None?
            && if id in n.transfers && n.transfers[id].outgoing && n.transfers[id].state.Proposed?
                  && n.contact.Some? && n.contact.value.id == n.transfers[id].contactId
               then Ended(n, id, Rejected, o.node) && o.node.outSeq == n.outSeq else o.node == n
  {
    hide ReleaseFor, SetState, Ended;
    if b.transferId in n.transfers && OwnsContact(n, n.transfers[b.transferId].contactId) {
      EndsOne(n, b.transferId, Rejected);
    }
  }

  /** An abort of the payer ends exactly a standing acceptance, and of the payer's proposals none. */
  lemma AbortedExactly(n: NodeState, b: Body)
    requires b.TransferAbort?
    ensures var id := b.transferId;
            var o := HandleTransferAbort(n, b);
            && o.out.None?
            && if id in n.transfers && !n.transfers[id].outgoing
                  && (n.transfers[id].state.Accepted? || n.transfers[id].state.Proposed?)
                  && n.contact.Some? && n.contact.value.id == n.transfers[id].contactId
               then Ended(n, id, Aborted, o.node) && o.node.outSeq == n.outSeq else o.node == n
  {
    hide ReleaseFor, SetState, Ended;
    if b.transferId in n.transfers && OwnsContact(n, n.transfers[b.transferId].contactId) {
      EndsOne(n, b.transferId, Aborted);
    }
  }

  /** A receipt settles exactly a committed outgoing transfer of this contact. */
  lemma ReceiptExactly(n: NodeState, b: Body, ctx: Ctx)
    requires b.TransferReceipt?
    ensures var id := b.transferId;
            var o := HandleTransferReceipt(n, b, ctx);
            if id in n.transfers && n.transfers[id].outgoing && n.transfers[id].state.Committed?
               && n.contact.Some? && n.contact.value.id == n.transfers[id].contactId
            then Ended(n, id, Settled, o.node) && o.node.outSeq == n.outSeq && o.out.None?
            else o.node.transfers == n.transfers && o.node.contact == n.contact && o.node.book == n.book
  {
    hide ReleaseFor, SetState, Ended;
    if b.transferId in n.transfers && OwnsContact(n, n.transfers[b.transferId].contactId) {
      EndsOne(n, b.transferId, Settled);
    }
  }

  /** Why a payment message is refused: no such transfer on this side, another contact's transfer, or
      a state that does not allow it. */
  predicate Refuses(n: NodeState, b: Body, payer: bool, o: Outcome)
    requires b.TransferAccept? || b.TransferCommit? || b.TransferReceipt?
  {
    && (b.transferId !in n.transfers || n.transfers[b.transferId].outgoing != payer ==>
         o.out.Some? && o.out.value.body == ErrorReply(UnknownTransfer))
    && (b.transferId in n.transfers && n.transfers[b.transferId].outgoing == payer ==>
         var t := n.transfers[b.transferId];
         if n.contact.None? || n.contact.value.id != t.contactId
         then o.out.Some? && o.out.value.body == ErrorReply(WrongSender)
         else t.state.Rejected? || t.state.Aborted? || t.state.Expired? ==>
                o.out.Some? && o.out.value.body == ErrorReply(BadState))
  }

  lemma PaymentErrors(n: NodeState, b: Body, ctx: Ctx)
    ensures b.TransferAccept? ==> Refuses(n, b, true, HandleTransferAccept(n, b, ctx))
    ensures b.TransferCommit? ==> Refuses(n, b, false, HandleTransferCommit(n, b, ctx))
    ensures b.TransferReceipt? ==> Refuses(n, b, true, HandleTransferReceipt(n, b, ctx))
  {
    hide CommitOutgoing, SettleIncoming, ReleaseFor, SetState, ExpireIfDue;
  }

  // ----- adjustments -----

  /** An adjustment starts exactly on an open, free contact, for a delta that is not zero and leaves
      the reserve at or above it. */
  lemma AdjustsExactly(n: NodeState, ctx: Ctx, delta: int, id: Id)
    ensures var d := AdjustReserve(n, ctx, delta, id);
            && (d.ok <==> OpenAt(n) && FreeAt(n, ctx.now) && delta != 0
                          && n.contact.value.myReserveOfPeer + delta >= 0)
            && d.node.book == n.book && d.node.transfers.Keys == n.transfers.Keys
            && (!d.ok ==> d.out.None? && OnlyLock(n, d.node))
            && (d.ok ==>
                 var c, c' := n.contact.value, d.node.contact;
                 && c'.Some? && c'.value.busy && c'.value.busyTransfer == Some(id)
                 && c'.value.pendingAdjust == Some(id) && c'.value.pendingDelta == delta
                 && c'.value.(busy := c.busy, busyTransfer := c.busyTransfer, pendingAdjust := c.pendingAdjust,
                              pendingDelta := c.pendingDelta) == c
                 && d.out.Some? && d.out.value.body == Body.ReserveAdjust(c.id, c.opSeq, id, delta))
  {
    hide ReleaseIfBusyExpired, FreeAt, Overstayed;
    ReleasesExactly(n, ctx.now);
  }

  /** What a proposed adjustment gets: the first reason that applies, in this order. */
  function AdjustReason(n: NodeState, b: Body, now: int): Option<ErrorCode>
    requires b.ReserveAdjust?
  {
    if n.contact.None? || !n.contact.value.active || n.contact.value.closed then Some(NoContact)
    else if n.contact.value.diverged then Some(ContactFrozen)
    else if !FreeAt(n, now) then Some(ContactBusy)
    else if b.opSeq != n.contact.value.opSeq then Some(StaleOp)
    else if b.myDelta == 0 then Some(InvalidPayload)
    else if b.adjustId !in AppliedAt(n) && n.contact.value.peerReserveOfMe + b.myDelta < 0
      then Some(InsufficientReserve)
    else None
  }

  /** The counter of what the peer holds moves by the delta, one operation on, unless the adjustment
      was applied before. */
  predicate MirroredBy(n: NodeState, b: Body, n': NodeState)
    requires b.ReserveAdjust?
  {
    && n.contact.Some? && n'.contact.Some?
    && var c, c' := n.contact.value, n'.contact.value;
       if b.adjustId in c.appliedAdjusts then OnlyLock(n, n')
       else c'.peerReserveOfMe == c.peerReserveOfMe + b.myDelta && c'.myReserveOfPeer == c.myReserveOfPeer
            && c'.opSeq == c.opSeq + 1 && c'.root == ChannelNext(c.root, "adjust", b.adjustId, b.myDelta, 0)
            && c'.appliedAdjusts == c.appliedAdjusts + {b.adjustId} && !c'.busy
  }

  lemma AppliesOne(n: NodeState, ctx: Ctx, b: Body)
    requires b.ReserveAdjust? && n.contact.Some? && !n.contact.value.busy
             && b.adjustId !in n.contact.value.appliedAdjusts
    ensures var c := n.contact.value;
            var c' := ApplyAdjust(c.(peerReserveOfMe := c.peerReserveOfMe + b.myDelta), b.adjustId, b.myDelta,
                                  !c.iAmProposer);
            MirroredBy(n, b, n.(contact := Some(c'.(appliedAdjusts := c'.appliedAdjusts + {b.adjustId}))))
  {
    hide Padded, ChannelNext;
  }

  /** A proposed adjustment is acknowledged exactly if nothing speaks against it, and then mirrored
      once; otherwise it gets the first reason and no reserve moves. */
  lemma AdjustmentExactly(n: NodeState, b: Body, ctx: Ctx)
    requires b.ReserveAdjust?
    ensures var o := HandleReserveAdjust(n, b, ctx);
            && o.out.Some? && o.out.value.seqNo == n.outSeq + 1 && o.node.outSeq == n.outSeq + 1
            && o.node.book == n.book && o.node.transfers.Keys == n.transfers.Keys
            && match AdjustReason(n, b, ctx.now)
               case None => o.out.value.body == ReserveAccept(n.contact.value.id, b.adjustId)
                 && MirroredBy(n, b, o.node)
               case Some(code) => o.out.value.body == ErrorReply(code) && OnlyLock(n, o.node)
  {
    hide ReleaseIfBusyExpired, FreeAt, Overstayed, ApplyAdjust, MirroredBy;
    ReleasesExactly(n, ctx.now);
    var n1 := ReleaseIfBusyExpired(n, ctx.now);
    if AdjustReason(n, b, ctx.now).None? {
      MirrorsAfterRelease(n, n1, b, ctx);
    }
  }

  lemma MirrorsAfterRelease(n: NodeState, n1: NodeState, b: Body, ctx: Ctx)
    requires b.ReserveAdjust? && n.contact.Some? && n1.contact.Some? && OnlyLock(n, n1) && !n1.contact.value.busy
    ensures b.adjustId in n.contact.value.appliedAdjusts ==>
              MirroredBy(n, b, Send(n1, ctx, ReserveAccept(n1.contact.value.id, b.adjustId)).node)
    ensures b.adjustId !in n.contact.value.appliedAdjusts ==>
              var c := n1.contact.value;
              var c' := ApplyAdjust(c.(peerReserveOfMe := c.peerReserveOfMe + b.myDelta), b.adjustId, b.myDelta,
                                    !c.iAmProposer);
              MirroredBy(n, b, Send(n1.(contact := Some(c'.(appliedAdjusts := c'.appliedAdjusts + {b.adjustId}))), ctx,
                                    ReserveAccept(c.id, b.adjustId)).node)
  {
    hide ApplyAdjust;
    if b.adjustId !in n.contact.value.appliedAdjusts {
      AppliesOne(n1, ctx, b);
    }
  }

  // ----- opening -----

  /** A node opens exactly one contact with a peer, with a positive seed. */
  lemma OpensExactly(n: NodeState, ctx: Ctx, seed: int, id: Id)
    ensures var d := OpenContact(n, ctx, seed, id);
            && (d.ok <==> seed > 0 && n.contact.None?) && (!d.ok ==> d == Done(n, None, false))
            && (d.ok ==>
                 && d.node.transfers == n.transfers && d.node.book == n.book
                 && d.node.contact.Some? && d.node.contact.value.id == id && d.node.contact.value.iAmProposer
                 && !d.node.contact.value.active && !d.node.contact.value.busy && !Shut(d.node)
                 && d.node.contact.value.proposerSeed == seed && d.node.contact.value.myReserveOfPeer == 0
                 && d.out.Some? && d.out.value.body == ContactPropose(id, seed))
  {
  }

  /** What a proposed contact gets: the first reason that applies, in this order. */
  function OpeningReason(n: NodeState, b: Body, autoSeed: int): Option<ErrorCode>
    requires b.ContactPropose?
  {
    if autoSeed <= 0 then Some(Refused)
    else if b.mySeed <= 0 then Some(InvalidPayload)
    else if n.contact.Some? then Some(DuplicateContact)
    else None
  }

  lemma SeedRoot(c: Contact)
    ensures var c' := ApplySeed(c);
            && c'.root == ChannelNext(ChannelRoot0(c.id), "seed", c.id, c.proposerSeed, c.responderSeed)
              && c'.opSeq == 0
            && c'.(root := c.root, roots := c.roots, opSeq := c.opSeq, history := c.history) == c
  {
    hide Padded, ChannelNext, ChannelRoot0;
  }

  /** A proposed contact is refused for the first reason that applies; otherwise it is active with
      both seeds as reserves and answered with the node's own seed, unless the ledger refuses. */
  lemma OpeningExactly(n: NodeState, b: Body, ctx: Ctx, autoSeed: int)
    requires b.ContactPropose?
    ensures var o := HandleContactPropose(n, b, ctx, autoSeed);
            && o.out.Some? && o.node.transfers == n.transfers
            && match OpeningReason(n, b, autoSeed)
               case Some(code) => o.out.value.body == ErrorReply(code) && o.node.contact == n.contact
                 && o.node.book == n.book
               case None =>
                 if o.out.value.body == ErrorReply(Internal) then o.node.contact == n.contact && o.node.book == n.book
                 else
                   && o.out.value.body == ContactAccept(b.contactId, autoSeed) && o.node.contact.Some?
                   && var c := o.node.contact.value;
                      && c.id == b.contactId && !c.iAmProposer && c.active && !c.closed && !c.diverged && !c.busy
                      && c.proposerSeed == b.mySeed && c.responderSeed == autoSeed
                      && c.myReserveOfPeer == autoSeed && c.peerReserveOfMe == b.mySeed && c.opSeq == 0
                      && c.root == ChannelNext(ChannelRoot0(c.id), "seed", c.id, b.mySeed, autoSeed)
  {
    hide Appended, ApplySeed, ChannelNext, ChannelRoot0;
    SeedRoot(FreshContact(b.contactId, false, b.mySeed, autoSeed)
             .(myReserveOfPeer := autoSeed, peerReserveOfMe := b.mySeed));
  }

  /** An acceptance activates exactly this node's own contact that is pending, with both seeds as
      reserves, unless the ledger refuses; a repeated one changes nothing and is not answered. */
  lemma ActivationExactly(n: NodeState, b: Body, ctx: Ctx)
    requires b.ContactAccept?
    ensures var o := HandleContactAccept(n, b, ctx);
            && o.node.transfers == n.transfers
            && if n.contact.None? || n.contact.value.id != b.contactId || !n.contact.value.iAmProposer
               then o.node.contact == n.contact && o.node.book == n.book
                    && o.out.Some? && o.out.value.body == ErrorReply(NoContact)
               else if n.contact.value.active then o == Outcome(n, None)
               else if b.mySeed <= 0
               then o.node.contact == n.contact && o.node.book == n.book
                    && o.out.Some? && o.out.value.body == ErrorReply(InvalidPayload)
               else if o.out.Some?
               then o.out.value.body == ErrorReply(Internal) && o.node.book == n.book
                    && o.node.contact.Some? && !o.node.contact.value.active
               else Activates(n.contact.value, b.mySeed, o.node)
  {
    hide Appended, ApplySeed, ChannelNext, ChannelRoot0;
    if n.contact.Some? {
      var c := n.contact.value.(responderSeed := b.mySeed);
      SeedRoot(c.(myReserveOfPeer := c.proposerSeed, peerReserveOfMe := c.responderSeed));
    }
  }

  /** The pending contact c is active on both seeds. */
  predicate Activates(c: Contact, seed: int, n: NodeState) {
    && n.contact.Some?
    && var c' := n.contact.value;
       && c'.id == c.id && c'.active && c'.closed == c.closed && c'.diverged == c.diverged
       && c'.proposerSeed == c.proposerSeed && c'.responderSeed == seed
       && c'.myReserveOfPeer == c.proposerSeed && c'.peerReserveOfMe == seed && c'.opSeq == 0
       && c'.root == ChannelNext(ChannelRoot0(c.id), "seed", c.id, c.proposerSeed, seed)
  }

  // ----- small messages -----

  /** A ping gets a pong, an unknown message an error; the rest of the small ones get nothing. */
  lemma SmallAnswers(n: NodeState, b: Body, ctx: Ctx, autoSeed: int)
    requires b.Ping? || b.Pong? || b.ErrorReply? || b.Unknown? || b.ContactUpdate?
    ensures var o := Route(n, b, ctx, autoSeed);
            && o.node.transfers == n.transfers && o.node.contact == n.contact && o.node.book == n.book
            && (b.Ping? ==> o.out == Some(Envelope(ctx.envelopeId, n.outSeq + 1, ctx.now, Pong)))
            && (b.Unknown? ==> o.out == Some(Envelope(ctx.envelopeId, n.outSeq + 1, ctx.now, ErrorReply(UnknownType))))
            && (b.ContactUpdate? ==> if n.contact.Some? then o.out.None?
                                     else o.out.Some? && o.out.value.body == ErrorReply(NoContact))
            && (b.Pong? || b.ErrorReply? ==> o.out.None? && o.node == n)
  {
  }
}
