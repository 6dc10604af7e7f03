/** What each message can bring about: which one settles a transfer, which one activates a
    contact, and what a node was asked when it answers with a commit, a receipt or its seed. */
module NodeTriggers {
  import opened Wrappers
  import opened PoolPricing
  import opened ChannelHistory
  import opened Ledgers
  import opened TransferStates
  import opened Messages
  import opened NodeSpec

  predicate ActiveAt(n: NodeState) { n.contact.Some? && n.contact.value.active }

  /** The receive position and the seen ids only grow. */
  predicate Onto(n: NodeState, n': NodeState) { n.seen <= n'.seen && n.lastSeq <= n'.lastSeq }

  /** Nothing is settled and no contact that was there is activated. */
  ghost predicate Waits(n: NodeState, n': NodeState) {
    && Onto(n, n')
    && (forall t :: StateOf(n', t) == Some(Settled) ==> StateOf(n, t) == Some(Settled))
    && (n.contact.Some? && ActiveAt(n') ==> ActiveAt(n))
  }

  /** What a message may settle or activate. */
  ghost predicate MovesBy(n: NodeState, b: Body, n': NodeState) {
    && Onto(n, n')
    && (forall t :: StateOf(n', t) == Some(Settled) ==>
          || StateOf(n, t) == Some(Settled)
          || (t in n.transfers && b == if n.transfers[t].outgoing then TransferReceipt(t) else TransferCommit(t)))
    && (n.contact.Some? && ActiveAt(n') ==> ActiveAt(n) || b.ContactAccept?)
  }

  /** What a newly sent answer says of the message and of the state it was sent from. */
  predicate Answers(n: NodeState, b: Body, o: Outcome) {
    o.node.outSeq != n.outSeq && o.out.Some? ==>
      match o.out.value.body
      case TransferCommit(t) => b == TransferAccept(t) && StateOf(n, t) == Some(Proposed)
      case TransferReceipt(t) => b == TransferCommit(t) && StateOf(n, t) == Some(Accepted)
      case ContactAccept(_, _) => b.ContactPropose? && n.contact.None?
      case ContactPropose(_, _) => false
      case TransferPropose(_, _, _, _, _, _, _, _) => false
      case _ => true
  }

  lemma ExpireWaits(n: NodeState, id: Id, now: int)
    ensures var n' := ExpireIfDue(n, id, now);
            Waits(n, n') && (n.contact.Some? <==> n'.contact.Some?) && n'.outSeq == n.outSeq
  {
  }

  lemma ReleaseWaits(n: NodeState, now: int)
    ensures var n' := ReleaseIfBusyExpired(n, now);
            Waits(n, n') && (n.contact.Some? <==> n'.contact.Some?) && n'.outSeq == n.outSeq
  {
    hide ExpireIfDue;
    if n.contact.Some? && n.contact.value.busyTransfer.Some? {
      ExpireWaits(n, n.contact.value.busyTransfer.value, now);
    }
  }

  lemma {:induction false} SweepWaits(n: NodeState, ids: seq<Id>, now: int)
    ensures var n' := Sweep(n, ids, now);
            Waits(n, n') && (n.contact.Some? <==> n'.contact.Some?) && n'.outSeq == n.outSeq
  {
    hide ExpireIfDue;
    if ids != [] {
      SweepWaits(n, ids[..|ids| - 1], now);
      ExpireWaits(Sweep(n, ids[..|ids| - 1], now), ids[|ids| - 1], now);
    }
  }

  lemma ApplyTransferActive(c: Contact, id: Id, src: int, dst: int, byProposer: bool)
    ensures ApplyTransfer(c, id, src, dst, byProposer).active == c.active
  {
    hide ChannelNext, Padded;
  }

  lemma ApplyAdjustActive(c: Contact, id: Id, delta: int, byProposer: bool)
    ensures ApplyAdjust(c, id, delta, byProposer).active == c.active
  {
    hide ChannelNext, Padded;
  }

  // ----- handlers -----

  lemma OpeningMoves(n: NodeState, b: Body, ctx: Ctx, autoSeed: int)
    ensures b.ContactPropose? ==>
              var o := HandleContactPropose(n, b, ctx, autoSeed); MovesBy(n, b, o.node) && Answers(n, b, o)
    ensures b.ContactAccept? ==> var o := HandleContactAccept(n, b, ctx); MovesBy(n, b, o.node) && Answers(n, b, o)
  {
    hide Appended, ApplySeed;
  }

  /** An answer of another kind, sent after what settles and activates nothing. */
  lemma SendMoves(n: NodeState, n1: NodeState, ctx: Ctx, b: Body, body: Body)
    requires Waits(n, n1) && (n.contact.Some? <==> n1.contact.Some?)
    requires !Answering(body) && !body.ContactPropose? && !body.TransferPropose?
    ensures var o := Send(n1, ctx, body); MovesBy(n, b, o.node) && Answers(n, b, o)
  {
  }

  lemma TakenUpMoves(n: NodeState, n1: NodeState, id: Id, t: Transfer, ctx: Ctx, b: Body, body: Body)
    requires Waits(n, n1) && (n.contact.Some? <==> n1.contact.Some?) && n1.contact.Some? && !t.state.Settled?
    requires !Answering(body) && !body.ContactPropose? && !body.TransferPropose?
    ensures var o := Send(n1.(transfers := n1.transfers[id := t], contact := Some(LockedBy(n1.contact.value, id))),
                          ctx, body);
            MovesBy(n, b, o.node) && Answers(n, b, o)
  {
    var n2 := n1.(transfers := n1.transfers[id := t], contact := Some(LockedBy(n1.contact.value, id)));
    assert Waits(n, n2);
    SendMoves(n, n2, ctx, b, body);
  }

  lemma ProposeMoves(n: NodeState, b: Body, ctx: Ctx)
    requires b.TransferPropose?
    ensures var o := HandleTransferPropose(n, b, ctx); MovesBy(n, b, o.node) && Answers(n, b, o)
  {
    hide ReleaseIfBusyExpired, PoolPrice, LocalPart, MovesBy, Send;
    var id, n1 := b.transferId, ReleaseIfBusyExpired(n, ctx.now);
    ReleaseWaits(n, ctx.now);
    forall code ensures var o := Send(n, ctx, TransferReject(id, code)); MovesBy(n, b, o.node) && Answers(n, b, o) {
      SendMoves(n, n, ctx, b, TransferReject(id, code));
    }
    forall code ensures var o := Send(n1, ctx, TransferReject(id, code)); MovesBy(n, b, o.node) && Answers(n, b, o) {
      SendMoves(n, n1, ctx, b, TransferReject(id, code));
    }
    if n1.contact.Some? {
      var c := n1.contact.value;
      var t := Transfer(c.id, false, Accepted, b.opSeq, b.fromMember, b.toMember, b.src, b.dst, b.expires, None);
      TakenUpMoves(n, n1, id, t, ctx, b, TransferAccept(id));
    }
  }

  lemma AdjustMoves(n: NodeState, b: Body, ctx: Ctx)
    requires b.ReserveAdjust?
    ensures var o := HandleReserveAdjust(n, b, ctx); MovesBy(n, b, o.node) && Answers(n, b, o)
  {
    hide ReleaseIfBusyExpired, ApplyAdjust;
    ReleaseWaits(n, ctx.now);
    var n1 := ReleaseIfBusyExpired(n, ctx.now);
    if n1.contact.Some? {
      var c := n1.contact.value;
      ApplyAdjustActive(c.(peerReserveOfMe := c.peerReserveOfMe + b.myDelta), b.adjustId, b.myDelta, !c.iAmProposer);
    }
  }

  lemma BookMoves(n: NodeState, b: Body, ctx: Ctx)
    requires b.ReserveAccept?
    ensures var o := HandleReserveAccept(n, b, ctx); MovesBy(n, b, o.node) && Answers(n, b, o)
  {
    hide Appended, ApplyAdjust;
    if n.contact.Some? {
      var c := n.contact.value;
      ApplyAdjustActive(c.(myReserveOfPeer := c.myReserveOfPeer + c.pendingDelta), b.adjustId, c.pendingDelta,
                        c.iAmProposer);
    }
  }

  lemma CommitsMoves(n: NodeState, id: Id, ctx: Ctx)
    requires id in n.transfers && n.contact.Some? && n.transfers[id].state.Proposed?
    ensures var o := CommitOutgoing(SetState(n, id, Accepted), id, ctx);
            Waits(n, o.node) && Answers(n, TransferAccept(id), o)
  {
    hide Appended, ApplyTransfer;
    var t, c := n.transfers[id], n.contact.value;
    ApplyTransferActive(c.(myReserveOfPeer := c.myReserveOfPeer + t.src, peerReserveOfMe := c.peerReserveOfMe - t.dst),
                        id, t.src, t.dst, c.iAmProposer);
  }

  lemma AcceptMoves(n: NodeState, b: Body, ctx: Ctx)
    requires b.TransferAccept?
    ensures var o := HandleTransferAccept(n, b, ctx); MovesBy(n, b, o.node) && Answers(n, b, o)
  {
    hide CommitOutgoing, ExpireIfDue;
    var id := b.transferId;
    ExpireWaits(n, id, ctx.now);
    if id in n.transfers && n.contact.Some? && n.transfers[id].state.Proposed? {
      CommitsMoves(n, id, ctx);
    }
  }

  /** Settling one transfer leaves every other one, and whether the contact is active. */
  lemma SettlesOne(n: NodeState, id: Id, ctx: Ctx)
    requires id in n.transfers && n.contact.Some? && n.transfers[id].state.Accepted?
    ensures var n' := SettleIncoming(SetState(n, id, Committed), id, ctx).node;
            (forall t :: t != id ==> StateOf(n', t) == StateOf(n, t)) && ActiveAt(n') == ActiveAt(n)
  {
    hide Appended, ApplyTransfer;
    var t, c := n.transfers[id], n.contact.value;
    ApplyTransferActive(c.(peerReserveOfMe := c.peerReserveOfMe + t.src, myReserveOfPeer := c.myReserveOfPeer - t.dst),
                        id, t.src, t.dst, !c.iAmProposer);
  }

  lemma SettlesAnswers(n: NodeState, id: Id, ctx: Ctx)
    requires id in n.transfers && n.contact.Some? && n.transfers[id].state.Accepted?
    ensures Answers(n, TransferCommit(id), SettleIncoming(SetState(n, id, Committed), id, ctx))
  {
    hide Appended, ApplyTransfer;
  }

  lemma SettlesMoves(n: NodeState, id: Id, ctx: Ctx)
    requires id in n.transfers && n.contact.Some? && n.transfers[id].state.Accepted? && !n.transfers[id].outgoing
    ensures var o := SettleIncoming(SetState(n, id, Committed), id, ctx);
            MovesBy(n, TransferCommit(id), o.node) && Answers(n, TransferCommit(id), o)
  {
    SettlesOne(n, id, ctx);
    SettlesAnswers(n, id, ctx);
    hide SettleIncoming, Answers, StateOf, ActiveAt;
  }

  lemma CommitMoves(n: NodeState, b: Body, ctx: Ctx)
    requires b.TransferCommit?
    ensures var o := HandleTransferCommit(n, b, ctx); MovesBy(n, b, o.node) && Answers(n, b, o)
  {
    hide SettleIncoming;
    var id := b.transferId;
    if id in n.transfers && n.contact.Some? && n.transfers[id].state.Accepted? && !n.transfers[id].outgoing {
      SettlesMoves(n, id, ctx);
    }
  }

  lemma StateMoves(n: NodeState, b: Body, id: Id, s: State)
    requires id in n.transfers && (s.Settled? ==> n.transfers[id].outgoing && b == TransferReceipt(id))
    ensures MovesBy(n, b, ReleaseFor(SetState(n, id, s), id)) && SetState(n, id, s).outSeq == n.outSeq
  {
    var n' := ReleaseFor(SetState(n, id, s), id);
    assert Onto(n, n') && (ActiveAt(n') <==> ActiveAt(n));
    assert n'.transfers == n.transfers[id := n.transfers[id].(state := s)];
    hide ReleaseFor, SetState, ActiveAt, Onto;
  }

  lemma QuietMoves(n: NodeState, b: Body, ctx: Ctx)
    ensures MovesBy(n, b, n) && forall code :: MovesBy(n, b, SendError(n, ctx, code).node)
  {
  }

  lemma EndingMoves(n: NodeState, b: Body, ctx: Ctx)
    ensures b.TransferReceipt? ==> var o := HandleTransferReceipt(n, b, ctx); MovesBy(n, b, o.node) && Answers(n, b, o)
    ensures b.TransferReject? ==> var o := HandleTransferReject(n, b); MovesBy(n, b, o.node) && Answers(n, b, o)
    ensures b.TransferAbort? ==> var o := HandleTransferAbort(n, b); MovesBy(n, b, o.node) && Answers(n, b, o)
  {
    hide MovesBy, ReleaseFor, SetState;
    QuietMoves(n, b, ctx);
    if (b.TransferReceipt? || b.TransferReject? || b.TransferAbort?) && b.transferId in n.transfers {
      StateMoves(n, b, b.transferId, Rejected);
      StateMoves(n, b, b.transferId, Aborted);
      if b.TransferReceipt? && n.transfers[b.transferId].outgoing {
        StateMoves(n, b, b.transferId, Settled);
      }
    }
  }

  lemma RouteMoves(n: NodeState, b: Body, ctx: Ctx, autoSeed: int)
    ensures var o := Route(n, b, ctx, autoSeed); MovesBy(n, b, o.node) && Answers(n, b, o)
  {
    hide HandleContactPropose, HandleContactAccept, HandleTransferPropose, HandleTransferAccept, HandleTransferReject,
      HandleTransferCommit, HandleTransferReceipt, HandleTransferAbort, HandleReserveAdjust, HandleReserveAccept;
    match b
    case ContactPropose(_, _) => OpeningMoves(n, b, ctx, autoSeed);
    case ContactAccept(_, _) => OpeningMoves(n, b, ctx, autoSeed);
    case TransferPropose(_, _, _, _, _, _, _, _) => ProposeMoves(n, b, ctx);
    case TransferAccept(_) => AcceptMoves(n, b, ctx);
    case TransferReject(_, _) => EndingMoves(n, b, ctx);
    case TransferCommit(_) => CommitMoves(n, b, ctx);
    case TransferReceipt(_) => EndingMoves(n, b, ctx);
    case TransferAbort(_) => EndingMoves(n, b, ctx);
    case ReserveAdjust(_, _, _, _) => AdjustMoves(n, b, ctx);
    case ReserveAccept(_, _) => BookMoves(n, b, ctx);
    case _ =>
  }

  // ----- operations -----

  predicate Answering(b: Body) { b.TransferCommit? || b.TransferReceipt? || b.ContactAccept? }

  /** An operation of the node's own settles nothing, activates nothing and answers nothing. */
  ghost predicate OnlyAsks(n: NodeState, d: Done) {
    && Waits(n, d.node)
    && (d.out.Some? ==> !Answering(d.out.value.body) && (d.out.value.body.ContactPropose? ==> n.contact.None?))
  }

  lemma OpenCloseAsk(n: NodeState, ctx: Ctx, seed: int, id: Id)
    ensures OnlyAsks(n, OpenContact(n, ctx, seed, id)) && OnlyAsks(n, CloseContact(n, ctx))
  {
  }

  lemma AbortAsks(n: NodeState, ctx: Ctx, id: Id)
    ensures OnlyAsks(n, AbortTransfer(n, ctx, id))
  {
  }

  lemma StartAsks(n: NodeState, ctx: Ctx, from: string, to: string, src: int, id: Id)
    ensures OnlyAsks(n, StartTransfer(n, ctx, from, to, src, id))
  {
    hide ReleaseIfBusyExpired, PoolPrice, LocalPart;
    ReleaseWaits(n, ctx.now);
  }

  lemma AdjustAsks(n: NodeState, ctx: Ctx, delta: int, id: Id)
    ensures OnlyAsks(n, AdjustReserve(n, ctx, delta, id))
  {
    hide ReleaseIfBusyExpired;
    ReleaseWaits(n, ctx.now);
  }
}
