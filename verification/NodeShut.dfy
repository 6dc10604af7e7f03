/** A contact that was closed or frozen takes nothing up: what a node does on such a contact, and
    which messages and operations close or freeze one. */
module NodeShut {
  import opened Wrappers
  import opened PoolPricing
  import opened ChannelHistory
  import opened Ledgers
  import opened TransferStates
  import opened Messages
  import opened NodeSpec
  import opened NodeFrames

  predicate ClosedAt(n: NodeState) { n.contact.Some? && n.contact.value.closed }

  predicate FrozenAt(n: NodeState) { n.contact.Some? && n.contact.value.diverged }

  predicate Shut(n: NodeState) { ClosedAt(n) || FrozenAt(n) }

  predicate SameMarks(n: NodeState, n': NodeState) {
    && ClosedAt(n') == ClosedAt(n) && FrozenAt(n') == FrozenAt(n)
    && (n.contact.Some? ==> n'.contact.Some?)
  }

  /** No transfer and no adjustment is taken up, and no lock is taken. */
  ghost predicate TakesNothing(n: NodeState, n': NodeState) {
    && n'.transfers.Keys == n.transfers.Keys
    && AppliedAt(n') == AppliedAt(n)
    && (PendingAt(n') == PendingAt(n) || PendingAt(n') == None)
  }

  predicate LockedAt(n: NodeState) { n.contact.Some? && n.contact.value.busy }

  /** A step on a contact, shut or not, that only marks it shut on the given conditions. */
  ghost predicate Keeps(n: NodeState, n': NodeState) {
    SameMarks(n, n') && (Shut(n) ==> TakesNothing(n, n') && (LockedAt(n') ==> LockedAt(n)))
  }

  lemma KeepsOn(n: NodeState, n': NodeState, n'': NodeState)
    requires Keeps(n, n') && Keeps(n', n'')
    ensures Keeps(n, n'')
  {
  }

  lemma ExpireKeeps(n: NodeState, id: Id, now: int)
    ensures Keeps(n, ExpireIfDue(n, id, now)) && Keeps(n, n)
  {
  }

  lemma ReleaseKeeps(n: NodeState, now: int)
    ensures Keeps(n, ReleaseIfBusyExpired(n, now))
  {
    hide ExpireIfDue, Keeps;
    ExpireKeeps(n, Uuid(""), now);
    if n.contact.Some? && n.contact.value.busyTransfer.Some? {
      ExpireKeeps(n, n.contact.value.busyTransfer.value, now);
    }
  }

  lemma {:induction false} SweepKeeps(n: NodeState, ids: seq<Id>, now: int)
    ensures Keeps(n, Sweep(n, ids, now))
  {
    hide ExpireIfDue, Keeps;
    ExpireKeeps(n, Uuid(""), now);
    if ids != [] {
      SweepKeeps(n, ids[..|ids| - 1], now);
      ExpireKeeps(Sweep(n, ids[..|ids| - 1], now), ids[|ids| - 1], now);
      KeepsOn(n, Sweep(n, ids[..|ids| - 1], now), Sweep(n, ids, now));
    }
  }

  // ----- operations -----

  lemma ShutRefuses(n: NodeState, ctx: Ctx, from: string, to: string, src: int, delta: int, id: Id)
    requires Shut(n)
    ensures StartTransfer(n, ctx, from, to, src, id) == Done(n, None, false)
    ensures AdjustReserve(n, ctx, delta, id) == Done(n, None, false)
  {
    hide ReleaseIfBusyExpired;
  }

  lemma StartKeeps(n: NodeState, ctx: Ctx, from: string, to: string, src: int, id: Id)
    ensures Keeps(n, StartTransfer(n, ctx, from, to, src, id).node)
  {
    hide ReleaseIfBusyExpired, PoolPrice, LocalPart;
    ReleaseKeeps(n, ctx.now);
  }

  lemma AdjustKeeps(n: NodeState, ctx: Ctx, delta: int, id: Id)
    ensures Keeps(n, AdjustReserve(n, ctx, delta, id).node)
  {
    hide ReleaseIfBusyExpired;
    ReleaseKeeps(n, ctx.now);
  }

  lemma AbortKeeps(n: NodeState, ctx: Ctx, id: Id)
    ensures Keeps(n, AbortTransfer(n, ctx, id).node)
  {
  }

  lemma OpenKeeps(n: NodeState, ctx: Ctx, seed: int, id: Id)
    ensures Keeps(n, OpenContact(n, ctx, seed, id).node)
  {
  }

  /** Closing marks the contact, changes nothing else of it and tells the peer. */
  lemma CloseMarks(n: NodeState, ctx: Ctx)
    ensures var d := CloseContact(n, ctx);
            && (d.ok <==> n.contact.Some?) && (!d.ok ==> d == Done(n, None, false))
            && (d.ok ==> ClosedAt(d.node) && FrozenAt(d.node) == FrozenAt(n) && TakesNothing(n, d.node)
                         && d.node.transfers == n.transfers && d.node.book == n.book
                         && d.out.Some? && d.out.value.body == ContactClose(n.contact.value.id))
  {
  }

  /** So does the peer's message. */
  lemma ClosedByPeer(n: NodeState)
    ensures var o := HandleContactClose(n);
            && o.out.None? && (ClosedAt(o.node) <==> n.contact.Some?) && FrozenAt(o.node) == FrozenAt(n)
            && TakesNothing(n, o.node) && o.node.transfers == n.transfers && o.node.book == n.book
  {
  }

  /** A checkpoint freezes the contact exactly if it shows another root at an index both have; a
      frozen contact stays frozen, and nothing else changes. */
  lemma FreezeMarks(n: NodeState, cp: Checkpoint)
    ensures var n' := Reconcile(n, cp);
            && (FrozenAt(n') <==> FrozenAt(n) || Freezes(n, cp)) && ClosedAt(n') == ClosedAt(n)
            && TakesNothing(n, n') && n'.transfers == n.transfers && n'.book == n.book
            && (n.contact.Some? <==> n'.contact.Some?) && LockedAt(n') == LockedAt(n)
  {
  }

  // ----- handlers -----

  lemma ApplyTransferMarks(c: Contact, id: Id, src: int, dst: int, byProposer: bool)
    ensures var c' := ApplyTransfer(c, id, src, dst, byProposer);
            && c'.closed == c.closed && c'.diverged == c.diverged && c'.busy == c.busy
            && c'.appliedAdjusts == c.appliedAdjusts && c'.pendingAdjust == c.pendingAdjust
  {
    hide ChannelNext, Padded;
  }

  lemma ApplyAdjustMarks(c: Contact, id: Id, delta: int, byProposer: bool)
    ensures var c' := ApplyAdjust(c, id, delta, byProposer);
            && c'.closed == c.closed && c'.diverged == c.diverged && c'.busy == c.busy
            && c'.appliedAdjusts == c.appliedAdjusts && c'.pendingAdjust == c.pendingAdjust
  {
    hide ChannelNext, Padded;
  }

  lemma ApplySeedMarks(c: Contact)
    ensures var c' := ApplySeed(c);
            && c'.closed == c.closed && c'.diverged == c.diverged && c'.busy == c.busy
            && c'.appliedAdjusts == c.appliedAdjusts && c'.pendingAdjust == c.pendingAdjust
  {
    hide ChannelNext, Padded;
  }

  lemma ContactProposeKeeps(n: NodeState, b: Body, ctx: Ctx, autoSeed: int)
    requires b.ContactPropose?
    ensures Keeps(n, HandleContactPropose(n, b, ctx, autoSeed).node)
  {
    hide Appended, ApplySeed;
    ApplySeedMarks(FreshContact(b.contactId, false, b.mySeed, autoSeed)
                   .(myReserveOfPeer := autoSeed, peerReserveOfMe := b.mySeed));
  }

  lemma ContactAcceptKeeps(n: NodeState, b: Body, ctx: Ctx)
    requires b.ContactAccept?
    ensures Keeps(n, HandleContactAccept(n, b, ctx).node)
  {
    hide Appended, ApplySeed;
    if n.contact.Some? {
      var c := n.contact.value.(responderSeed := b.mySeed);
      ApplySeedMarks(c.(myReserveOfPeer := c.proposerSeed, peerReserveOfMe := c.responderSeed));
    }
  }

  /** What a shut contact answers to a proposal: frozen if it is active and was not closed. */
  function ShutAnswer(c: Contact): RejectCode { if !c.active || c.closed then UnknownContact else Frozen }

  lemma ProposeShut(n: NodeState, b: Body, ctx: Ctx)
    requires b.TransferPropose? && Shut(n)
    ensures HandleTransferPropose(n, b, ctx) == Send(n, ctx, TransferReject(b.transferId, ShutAnswer(n.contact.value)))
  {
    hide ReleaseIfBusyExpired;
  }

  lemma ProposeKeeps(n: NodeState, b: Body, ctx: Ctx)
    requires b.TransferPropose?
    ensures Keeps(n, HandleTransferPropose(n, b, ctx).node)
  {
    hide ReleaseIfBusyExpired, PoolPrice, LocalPart;
    ReleaseKeeps(n, ctx.now);
  }

  lemma CommitsKeep(n: NodeState, id: Id, ctx: Ctx)
    requires id in n.transfers && n.contact.Some? && n.transfers[id].state.Proposed?
    ensures Keeps(n, CommitOutgoing(SetState(n, id, Accepted), id, ctx).node)
  {
    hide Appended, ApplyTransfer;
    var t, c := n.transfers[id], n.contact.value;
    ApplyTransferMarks(c.(myReserveOfPeer := c.myReserveOfPeer + t.src, peerReserveOfMe := c.peerReserveOfMe - t.dst),
                       id, t.src, t.dst, c.iAmProposer);
  }

  lemma AcceptKeeps(n: NodeState, b: Body, ctx: Ctx)
    requires b.TransferAccept?
    ensures Keeps(n, HandleTransferAccept(n, b, ctx).node)
  {
    hide CommitOutgoing, ExpireIfDue;
    ExpireKeeps(n, b.transferId, ctx.now);
    if b.transferId in n.transfers && n.contact.Some? && n.transfers[b.transferId].state.Proposed? {
      CommitsKeep(n, b.transferId, ctx);
    }
  }

  lemma PaidKeeps(n: NodeState, id: Id, ctx: Ctx)
    requires id in n.transfers && n.contact.Some? && n.transfers[id].state.Committed?
    ensures PaidIn(n, id, ctx).Some? ==> Keeps(n, PaidIn(n, id, ctx).value) && id in PaidIn(n, id, ctx).value.transfers
  {
    hide Appended, ApplyTransfer;
    var t, c := n.transfers[id], n.contact.value;
    ApplyTransferMarks(c.(peerReserveOfMe := c.peerReserveOfMe + t.src, myReserveOfPeer := c.myReserveOfPeer - t.dst),
                       id, t.src, t.dst, !c.iAmProposer);
  }

  lemma ReceiptedKeeps(n: NodeState, id: Id, ctx: Ctx)
    requires id in n.transfers
    ensures Keeps(n, Receipted(n, id, ctx).node)
  {
  }

  lemma SettlesKeep(n: NodeState, id: Id, ctx: Ctx)
    requires id in n.transfers && n.contact.Some? && n.transfers[id].state.Accepted?
    ensures Keeps(n, SettleIncoming(SetState(n, id, Committed), id, ctx).node)
  {
    hide Keeps, PaidIn, Receipted;
    var n1 := SetState(n, id, Committed);
    StateKeeps(n, id, Committed);
    PaidKeeps(n1, id, ctx);
    if PaidIn(n1, id, ctx).Some? {
      var n2 := PaidIn(n1, id, ctx).value;
      ReceiptedKeeps(n2, id, ctx);
      KeepsOn(n, n1, n2);
      KeepsOn(n, n2, Receipted(n2, id, ctx).node);
    } else {
      PlainKeeps(n1, ctx, ErrorReply(Internal));
      KeepsOn(n, n1, Send(n1, ctx, ErrorReply(Internal)).node);
    }
  }

  lemma CommitKeeps(n: NodeState, b: Body, ctx: Ctx)
    requires b.TransferCommit?
    ensures Keeps(n, HandleTransferCommit(n, b, ctx).node)
  {
    hide SettleIncoming;
    if b.transferId in n.transfers && n.contact.Some? && n.transfers[b.transferId].state.Accepted? {
      SettlesKeep(n, b.transferId, ctx);
    }
  }

  lemma StateKeeps(n: NodeState, id: Id, s: State)
    requires id in n.transfers
    ensures Keeps(n, SetState(n, id, s)) && Keeps(n, ReleaseFor(SetState(n, id, s), id))
  {
  }

  lemma EndingKeeps(n: NodeState, b: Body, ctx: Ctx)
    ensures b.TransferReceipt? ==> Keeps(n, HandleTransferReceipt(n, b, ctx).node)
    ensures b.TransferReject? ==> Keeps(n, HandleTransferReject(n, b).node)
    ensures b.TransferAbort? ==> Keeps(n, HandleTransferAbort(n, b).node)
  {
    hide SetState, ReleaseFor, Keeps, Send;
    PlainKeeps(n, ctx, ErrorReply(UnknownTransfer));
    PlainKeeps(n, ctx, ErrorReply(WrongSender));
    PlainKeeps(n, ctx, ErrorReply(BadState));
    if (b.TransferReceipt? || b.TransferReject? || b.TransferAbort?) && b.transferId in n.transfers {
      StateKeeps(n, b.transferId, Settled);
      StateKeeps(n, b.transferId, Rejected);
      StateKeeps(n, b.transferId, Aborted);
    }
  }

  lemma AdjustShut(n: NodeState, b: Body, ctx: Ctx)
    requires b.ReserveAdjust? && Shut(n)
    ensures var c := n.contact.value;
            HandleReserveAdjust(n, b, ctx) ==
              SendError(n, ctx, if !c.active || c.closed then NoContact else ContactFrozen)
  {
    hide ReleaseIfBusyExpired;
  }

  lemma ReserveAdjustKeeps(n: NodeState, b: Body, ctx: Ctx)
    requires b.ReserveAdjust?
    ensures Keeps(n, HandleReserveAdjust(n, b, ctx).node)
  {
    hide ReleaseIfBusyExpired, ApplyAdjust;
    ReleaseKeeps(n, ctx.now);
    var n1 := ReleaseIfBusyExpired(n, ctx.now);
    if n1.contact.Some? {
      var c := n1.contact.value;
      ApplyAdjustMarks(c.(peerReserveOfMe := c.peerReserveOfMe + b.myDelta), b.adjustId, b.myDelta, !c.iAmProposer);
    }
  }

  lemma ReserveAcceptKeeps(n: NodeState, b: Body, ctx: Ctx)
    requires b.ReserveAccept?
    ensures Keeps(n, HandleReserveAccept(n, b, ctx).node)
  {
    hide Appended, ApplyAdjust;
    if n.contact.Some? {
      var c := n.contact.value;
      ApplyAdjustMarks(c.(myReserveOfPeer := c.myReserveOfPeer + c.pendingDelta), b.adjustId, c.pendingDelta,
                       c.iAmProposer);
    }
  }

  lemma PlainKeeps(n: NodeState, ctx: Ctx, b: Body)
    ensures Keeps(n, n) && Keeps(n, Send(n, ctx, b).node)
  {
  }

  /** A message marks a contact closed exactly if it says so, and never frozen. */
  lemma RouteKeeps(n: NodeState, b: Body, ctx: Ctx, autoSeed: int)
    ensures !b.ContactClose? ==> Keeps(n, Route(n, b, ctx, autoSeed).node)
  {
    hide HandleContactPropose, HandleContactAccept, HandleTransferPropose, HandleTransferAccept, HandleTransferReject,
      HandleTransferCommit, HandleTransferReceipt, HandleTransferAbort, HandleReserveAdjust, HandleReserveAccept,
      Send, Keeps;
    PlainKeeps(n, ctx, b);
    match b
    case ContactPropose(_, _) => ContactProposeKeeps(n, b, ctx, autoSeed);
    case ContactAccept(_, _) => ContactAcceptKeeps(n, b, ctx);
    case TransferPropose(_, _, _, _, _, _, _, _) => ProposeKeeps(n, b, ctx);
    case TransferAccept(_) => AcceptKeeps(n, b, ctx);
    case TransferReject(_, _) => EndingKeeps(n, b, ctx);
    case TransferCommit(_) => CommitKeeps(n, b, ctx);
    case TransferReceipt(_) => EndingKeeps(n, b, ctx);
    case TransferAbort(_) => EndingKeeps(n, b, ctx);
    case ReserveAdjust(_, _, _, _) => ReserveAdjustKeeps(n, b, ctx);
    case ReserveAccept(_, _) => ReserveAcceptKeeps(n, b, ctx);
    case ContactUpdate(_) => PlainKeeps(n, ctx, ErrorReply(NoContact));
    case Ping => PlainKeeps(n, ctx, Pong);
    case Unknown => PlainKeeps(n, ctx, ErrorReply(UnknownType));
    case _ =>
  }

  // ----- the gate -----

  /** What an envelope past the gate gets from a shut contact: a proposal is refused with the
      answer that fits, and nothing but the receive position, the answer and its number changes. */
  lemma ShutAnswers(n: NodeState, env: Envelope, ctx: Ctx, autoSeed: int)
    requires Shut(n) && Validate(env, n.seen, n.lastSeq, ctx.now).Ok?
    requires env.body.TransferPropose? || env.body.ReserveAdjust?
    ensures var r := ProcessInbound(n, env, ctx, autoSeed);
            && r.node.transfers == n.transfers && r.node.contact == n.contact && r.node.book == n.book
            && r.node.outSeq == n.outSeq + 1
            && r.out.Some? && r.out.value.seqNo == n.outSeq + 1
            && r.out.value.body == if env.body.TransferPropose?
                                   then TransferReject(env.body.transferId, ShutAnswer(n.contact.value))
                                   else ErrorReply(if ShutAnswer(n.contact.value).Frozen? then ContactFrozen
                                                   else NoContact)
  {
    hide HandleTransferPropose, HandleReserveAdjust;
    if env.body.TransferPropose? {
      ProposeShut(n, env.body, ctx);
    } else {
      AdjustShut(n, env.body, ctx);
    }
  }

  // ----- at rest -----

  /** A shut, active contact with nothing under way. */
  ghost predicate AtRest(n: NodeState) {
    && Shut(n) && n.contact.value.active && !n.contact.value.busy && n.contact.value.busyTransfer.None?
    && n.contact.value.pendingAdjust.None?
    && forall t :: t in n.transfers ==>
         !n.transfers[t].state.Proposed? && !n.transfers[t].state.Accepted? && !n.transfers[t].state.Committed?
  }

  /** Reserves, operations and transfers are the same; marks and the recorded roots may differ. */
  predicate SameDeal(n: NodeState, n': NodeState) {
    && n'.transfers == n.transfers && n.contact.Some? && n'.contact.Some?
    && n'.contact.value.(closed := n.contact.value.closed, diverged := n.contact.value.diverged,
                         roots := n.contact.value.roots) == n.contact.value
  }

  lemma RestOn(n: NodeState, n': NodeState)
    requires AtRest(n) && SameDeal(n, n') && Shut(n')
    ensures AtRest(n')
  {
  }

  /** No transfer is due at rest. */
  lemma RestsUnexpired(n: NodeState, id: Id, now: int)
    requires AtRest(n)
    ensures ExpireIfDue(n, id, now) == n && ReleaseIfBusyExpired(n, now) == n
  {
  }

  lemma {:induction false} RestsUnswept(n: NodeState, ids: seq<Id>, now: int)
    requires AtRest(n)
    ensures Sweep(n, ids, now) == n
  {
    hide ExpireIfDue, AtRest;
    if ids != [] {
      RestsUnswept(n, ids[..|ids| - 1], now);
      RestsUnexpired(n, ids[|ids| - 1], now);
    }
  }

  lemma PaymentsRest(n: NodeState, b: Body, ctx: Ctx)
    requires AtRest(n)
    ensures b.TransferAccept? ==> SameDeal(n, HandleTransferAccept(n, b, ctx).node)
    ensures b.TransferCommit? ==> SameDeal(n, HandleTransferCommit(n, b, ctx).node)
  {
    hide CommitOutgoing, SettleIncoming, ExpireIfDue;
    if b.TransferAccept? || b.TransferCommit? {
      RestsUnexpired(n, b.transferId, ctx.now);
    }
  }

  lemma EndingsRest(n: NodeState, b: Body, ctx: Ctx)
    requires AtRest(n)
    ensures b.TransferReceipt? ==> SameDeal(n, HandleTransferReceipt(n, b, ctx).node)
    ensures b.TransferReject? ==> HandleTransferReject(n, b).node == n
    ensures b.TransferAbort? ==> HandleTransferAbort(n, b).node == n
  {
    hide ReleaseFor, SetState;
  }

  lemma OthersRest(n: NodeState, b: Body, ctx: Ctx, autoSeed: int)
    requires AtRest(n)
    ensures b.ContactPropose? ==> SameDeal(n, HandleContactPropose(n, b, ctx, autoSeed).node)
    ensures b.ContactAccept? ==> SameDeal(n, HandleContactAccept(n, b, ctx).node)
    ensures b.TransferPropose? ==> SameDeal(n, HandleTransferPropose(n, b, ctx).node)
    ensures b.ReserveAdjust? ==> SameDeal(n, HandleReserveAdjust(n, b, ctx).node)
    ensures b.ReserveAccept? ==> SameDeal(n, HandleReserveAccept(n, b, ctx).node)
  {
    hide SeedLeg, ApplySeed, ApplyAdjust, Appended, ReleaseIfBusyExpired;
    if b.TransferPropose? {
      ProposeShut(n, b, ctx);
    } else if b.ReserveAdjust? {
      AdjustShut(n, b, ctx);
    }
  }

  lemma SendsRest(n: NodeState, ctx: Ctx, b: Body)
    requires AtRest(n)
    ensures SameDeal(n, n) && SameDeal(n, Send(n, ctx, b).node)
  {
  }

  /** No message moves a contact at rest. */
  lemma RouteRests(n: NodeState, b: Body, ctx: Ctx, autoSeed: int)
    requires AtRest(n)
    ensures SameDeal(n, Route(n, b, ctx, autoSeed).node)
  {
    hide HandleContactPropose, HandleContactAccept, HandleTransferPropose, HandleTransferAccept, HandleTransferReject,
      HandleTransferCommit, HandleTransferReceipt, HandleTransferAbort, HandleReserveAdjust, HandleReserveAccept,
      Send, SameDeal, AtRest;
    SendsRest(n, ctx, Pong);
    match b
    case ContactPropose(_, _) => OthersRest(n, b, ctx, autoSeed);
    case ContactAccept(_, _) => OthersRest(n, b, ctx, autoSeed);
    case TransferPropose(_, _, _, _, _, _, _, _) => OthersRest(n, b, ctx, autoSeed);
    case ReserveAdjust(_, _, _, _) => OthersRest(n, b, ctx, autoSeed);
    case ReserveAccept(_, _) => OthersRest(n, b, ctx, autoSeed);
    case TransferAccept(_) => PaymentsRest(n, b, ctx);
    case TransferCommit(_) => PaymentsRest(n, b, ctx);
    case TransferReceipt(_) => EndingsRest(n, b, ctx);
    case TransferReject(_, _) => EndingsRest(n, b, ctx);
    case TransferAbort(_) => EndingsRest(n, b, ctx);
    case ContactClose(_) => CloseRests(n);
    case ContactUpdate(_) => SendsRest(n, ctx, ErrorReply(NoContact));
    case Unknown => SendsRest(n, ctx, ErrorReply(UnknownType));
    case _ =>
  }

  lemma CloseRests(n: NodeState)
    requires n.contact.Some?
    ensures SameDeal(n, HandleContactClose(n).node)
    ensures forall ctx :: SameDeal(n, CloseContact(n, ctx).node)
  {
  }

  lemma ProcessedKeeps(n: NodeState, n': NodeState, env: Envelope, out: Option<Envelope>)
    ensures var m := Processed(n', env, out);
            && (Keeps(n, n') ==> Keeps(n, m)) && ClosedAt(m) == ClosedAt(n') && FrozenAt(m) == FrozenAt(n')
            && (TakesNothing(n, n') ==> TakesNothing(n, m)) && LockedAt(m) == LockedAt(n')
  {
  }
}
