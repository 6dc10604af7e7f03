/** Receiving one envelope: the position moves, the handler runs, the answer is stored. */
module NodeInbound {
  import opened Wrappers
  import opened PoolPricing
  import opened ChannelHistory
  import opened Ledgers
  import opened Supply
  import opened TransferStates
  import opened Messages
  import opened NodeSpec
  import opened NodeInvariant
  import opened NodeRecords
  import opened NodeSteps
  import opened NodeOpenSteps
  import opened NodeTransferSteps
  import opened NodeCommitSteps
  import opened NodeAdjustSteps
  import P = ProtocolInvariant
  import M = ProtocolMoves

  // ----- handlers do not look at the receive position -----

  function At(n: NodeState, k: nat): NodeState { n.(lastSeq := k) }

  function OutcomeAt(o: Outcome, k: nat): Outcome { Outcome(At(o.node, k), o.out) }

  lemma ExpireAt(n: NodeState, id: Id, now: int, k: nat)
    ensures ExpireIfDue(At(n, k), id, now) == At(ExpireIfDue(n, id, now), k)
  {
  }

  lemma ReleaseAt(n: NodeState, now: int, k: nat)
    ensures ReleaseIfBusyExpired(At(n, k), now) == At(ReleaseIfBusyExpired(n, now), k)
  {
    hide ExpireIfDue;
    if n.contact.Some? && n.contact.value.busy && n.contact.value.busyTransfer.Some? {
      ExpireAt(n, n.contact.value.busyTransfer.value, now, k);
    }
  }

  lemma SeedLegAt(n: NodeState, ctx: Ctx, amount: int, k: nat)
    ensures SeedLeg(At(n, k), ctx, amount) == SeedLeg(n, ctx, amount)
  {
    hide Appended;
  }

  lemma ProposeAt(n: NodeState, b: Body, ctx: Ctx, k: nat)
    requires b.TransferPropose?
    ensures HandleTransferPropose(At(n, k), b, ctx) == OutcomeAt(HandleTransferPropose(n, b, ctx), k)
  {
    hide ReleaseIfBusyExpired, PoolPrice, Send, LocalPart;
    var id, n1 := b.transferId, ReleaseIfBusyExpired(n, ctx.now);
    ReleaseAt(n, ctx.now, k);
    forall body ensures Send(At(n, k), ctx, body) == OutcomeAt(Send(n, ctx, body), k) {
      SendAt(n, ctx, body, k);
    }
    forall body ensures Send(At(n1, k), ctx, body) == OutcomeAt(Send(n1, ctx, body), k) {
      SendAt(n1, ctx, body, k);
    }
    if n1.contact.Some? {
      var c := n1.contact.value;
      var t := Transfer(c.id, false, Accepted, b.opSeq, b.fromMember, b.toMember, b.src, b.dst, b.expires, None);
      SendAt(n1.(transfers := n1.transfers[id := t], contact := Some(LockedBy(c, id))), ctx, TransferAccept(id), k);
    }
  }

  lemma AdjustAt(n: NodeState, b: Body, ctx: Ctx, k: nat)
    requires b.ReserveAdjust?
    ensures HandleReserveAdjust(At(n, k), b, ctx) == OutcomeAt(HandleReserveAdjust(n, b, ctx), k)
  {
    hide ReleaseIfBusyExpired, ApplyAdjust, Send;
    var n1 := ReleaseIfBusyExpired(n, ctx.now);
    ReleaseAt(n, ctx.now, k);
    forall body ensures Send(At(n, k), ctx, body) == OutcomeAt(Send(n, ctx, body), k) {
      SendAt(n, ctx, body, k);
    }
    forall body ensures Send(At(n1, k), ctx, body) == OutcomeAt(Send(n1, ctx, body), k) {
      SendAt(n1, ctx, body, k);
    }
    if n1.contact.Some? {
      var c := n1.contact.value;
      var c' := ApplyAdjust(c.(peerReserveOfMe := c.peerReserveOfMe + b.myDelta), b.adjustId, b.myDelta,
                            !c.iAmProposer);
      var n2 := n1.(contact := Some(c'.(appliedAdjusts := c'.appliedAdjusts + {b.adjustId})));
      SendAt(n2, ctx, ReserveAccept(c.id, b.adjustId), k);
    }
  }

  lemma SendAt(n: NodeState, ctx: Ctx, body: Body, k: nat)
    ensures Send(At(n, k), ctx, body) == OutcomeAt(Send(n, ctx, body), k)
  {
  }

  lemma ReserveAcceptAt(n: NodeState, b: Body, ctx: Ctx, k: nat)
    requires b.ReserveAccept?
    ensures HandleReserveAccept(At(n, k), b, ctx) == OutcomeAt(HandleReserveAccept(n, b, ctx), k)
  {
    hide Appended, ApplyAdjust;
  }

  lemma AcceptAt(n: NodeState, b: Body, ctx: Ctx, k: nat)
    requires b.TransferAccept?
    ensures HandleTransferAccept(At(n, k), b, ctx) == OutcomeAt(HandleTransferAccept(n, b, ctx), k)
  {
    hide CommitOutgoing, ExpireIfDue;
    var id := b.transferId;
    ExpireAt(n, id, ctx.now, k);
    if id in n.transfers && n.contact.Some? {
      CommitOutgoingAt(SetState(n, id, Accepted), id, ctx, k);
    }
  }

  lemma CommitOutgoingAt(n: NodeState, id: Id, ctx: Ctx, k: nat)
    requires id in n.transfers && n.contact.Some? && n.transfers[id].state.Accepted?
    ensures CommitOutgoing(At(n, k), id, ctx) == OutcomeAt(CommitOutgoing(n, id, ctx), k)
  {
    hide Appended, ApplyTransfer;
  }

  lemma CommitAt(n: NodeState, b: Body, ctx: Ctx, k: nat)
    requires b.TransferCommit?
    ensures HandleTransferCommit(At(n, k), b, ctx) == OutcomeAt(HandleTransferCommit(n, b, ctx), k)
  {
    hide SettleIncoming;
    var id := b.transferId;
    if id in n.transfers && n.contact.Some? {
      SettleIncomingAt(SetState(n, id, Committed), id, ctx, k);
    }
  }

  lemma SettleIncomingAt(n: NodeState, id: Id, ctx: Ctx, k: nat)
    requires id in n.transfers && n.contact.Some? && n.transfers[id].state.Committed?
    ensures SettleIncoming(At(n, k), id, ctx) == OutcomeAt(SettleIncoming(n, id, ctx), k)
  {
    hide Appended, ApplyTransfer;
  }

  lemma ReceiptAt(n: NodeState, b: Body, ctx: Ctx, k: nat)
    requires b.TransferReceipt?
    ensures HandleTransferReceipt(At(n, k), b, ctx) == OutcomeAt(HandleTransferReceipt(n, b, ctx), k)
  {
  }

  lemma EndingAt(n: NodeState, b: Body, k: nat)
    ensures b.TransferReject? ==> HandleTransferReject(At(n, k), b) == OutcomeAt(HandleTransferReject(n, b), k)
    ensures b.TransferAbort? ==> HandleTransferAbort(At(n, k), b) == OutcomeAt(HandleTransferAbort(n, b), k)
  {
  }

  lemma OpeningAt(n: NodeState, b: Body, ctx: Ctx, autoSeed: int, k: nat)
    ensures b.ContactPropose? ==>
              HandleContactPropose(At(n, k), b, ctx, autoSeed) ==
                OutcomeAt(HandleContactPropose(n, b, ctx, autoSeed), k)
    ensures b.ContactAccept? ==>
              HandleContactAccept(At(n, k), b, ctx) == OutcomeAt(HandleContactAccept(n, b, ctx), k)
  {
    hide SeedLeg, ApplySeed, Send;
    forall m: NodeState, body ensures Send(At(m, k), ctx, body) == OutcomeAt(Send(m, ctx, body), k) {
      SendAt(m, ctx, body, k);
    }
    SeedLegAt(n, ctx, autoSeed, k);
    if n.contact.Some? {
      SeedLegAt(n, ctx, n.contact.value.proposerSeed, k);
    }
  }

  /** Whether the position moves before or after the handler makes no difference. */
  lemma RouteAt(n: NodeState, b: Body, ctx: Ctx, autoSeed: int, k: nat)
    ensures Route(At(n, k), b, ctx, autoSeed) == OutcomeAt(Route(n, b, ctx, autoSeed), k)
  {
    hide HandleContactPropose, HandleContactAccept, HandleTransferPropose, HandleTransferAccept, HandleTransferReject,
      HandleTransferCommit, HandleTransferReceipt, HandleTransferAbort, HandleReserveAdjust, HandleReserveAccept;
    match b
    case ContactPropose(_, _) => OpeningAt(n, b, ctx, autoSeed, k);
    case ContactAccept(_, _) => OpeningAt(n, b, ctx, autoSeed, k);
    case TransferPropose(_, _, _, _, _, _, _, _) => ProposeAt(n, b, ctx, k);
    case TransferAccept(_) => AcceptAt(n, b, ctx, k);
    case TransferReject(_, _) => EndingAt(n, b, k);
    case TransferCommit(_) => CommitAt(n, b, ctx, k);
    case TransferReceipt(_) => ReceiptAt(n, b, ctx, k);
    case TransferAbort(_) => EndingAt(n, b, k);
    case ReserveAdjust(_, _, _, _) => AdjustAt(n, b, ctx, k);
    case ReserveAccept(_, _) => ReserveAcceptAt(n, b, ctx, k);
    case _ =>
  }

  // ----- handling -----

  lemma RouteGood(n: NodeState, y: P.Core, sx: Sent, sy: Sent, i: nat, ctx: Ctx, autoSeed: int)
    requires Good(n, y, sx, sy) && i < |sy| && n.lastSeq == i + 1 && M.Readable(CoreOf(n), y, sx, sy, i)
    ensures var o := Route(n, sy[i].body, ctx, autoSeed);
            var sx' := SentAfter(sx, n, o.node, o.out);
            Good(o.node, y, sx', sy) && (o.out.Some? ==> o.out.value in sx')
  {
    hide Good, M.Readable, HandleContactPropose, HandleContactAccept, HandleTransferPropose, HandleTransferAccept,
      HandleTransferReject, HandleTransferCommit, HandleTransferReceipt, HandleTransferAbort, HandleReserveAdjust,
      HandleReserveAccept, P.Backs;
    OutSeqIs(n, y, sx, sy);
    ReadableBacks(CoreOf(n), y, sx, sy, i);
    var o := Route(n, sy[i].body, ctx, autoSeed);
    match sy[i].body
    case TransferCommit(_) => TransferCommitGood(n, y, sx, sy, i, ctx);
    case _ =>
      RouteSends(n, y, sx, sy, i, ctx, autoSeed);
      NotedGood(n, y, sx, sy, o);
  }

  lemma ReadableBacks(x: P.Core, y: P.Core, sx: Sent, sy: Sent, i: nat)
    requires i < |sy| && M.Readable(x, y, sx, sy, i)
    ensures P.Backs(y, sy[i].body)
  {
  }

  lemma RouteSends(n: NodeState, y: P.Core, sx: Sent, sy: Sent, i: nat, ctx: Ctx, autoSeed: int)
    requires Good(n, y, sx, sy) && i < |sy| && n.lastSeq == i + 1 && M.Readable(CoreOf(n), y, sx, sy, i)
    requires !sy[i].body.TransferCommit?
    ensures var o := Route(n, sy[i].body, ctx, autoSeed); Good(o.node, y, With(sx, o.out), sy)
  {
    hide Good, M.Readable, HandleContactPropose, HandleContactAccept, HandleTransferPropose, HandleTransferAccept,
      HandleTransferReject, HandleTransferCommit, HandleTransferReceipt, HandleTransferAbort, HandleReserveAdjust,
      HandleReserveAccept, P.Backs;
    ReadableBacks(CoreOf(n), y, sx, sy, i);
    match sy[i].body
    case ContactPropose(_, _) => ContactProposeGood(n, y, sx, sy, i, ctx, autoSeed);
    case ContactAccept(_, _) => ContactAcceptGood(n, y, sx, sy, i, ctx);
    case ContactUpdate(_) => PlainGood(n, y, sx, sy, ctx, NoContact);
    case ContactClose(_) => ClosedGood(n, y, sx, sy);
    case TransferPropose(_, _, _, _, _, _, _, _) => TransferProposeGood(n, y, sx, sy, i, ctx);
    case TransferAccept(_) => TransferAcceptGood(n, y, sx, sy, i, ctx);
    case TransferReject(_, _) => TransferRejectGood(n, y, sx, sy, i);
    case TransferReceipt(_) => TransferReceiptGood(n, y, sx, sy, i, ctx);
    case TransferAbort(_) => TransferAbortGood(n, y, sx, sy, i);
    case ReserveAdjust(_, _, _, _) => ReserveAdjustGood(n, y, sx, sy, i, ctx);
    case ReserveAccept(_, _) => ReserveAcceptGood(n, y, sx, sy, i, ctx);
    case Ping => PingGood(n, y, sx, sy, ctx);
    case Pong =>
    case ErrorReply(_) =>
    case Unknown => PlainGood(n, y, sx, sy, ctx, UnknownType);
  }

  lemma PlainGood(n: NodeState, y: P.Core, sx: Sent, sy: Sent, ctx: Ctx, code: ErrorCode)
    requires Good(n, y, sx, sy)
    ensures var o := SendError(n, ctx, code); Good(o.node, y, With(sx, o.out), sy)
  {
    hide Good;
    NoteGood(n, y, sx, sy, ctx, ErrorReply(code));
  }

  lemma PingGood(n: NodeState, y: P.Core, sx: Sent, sy: Sent, ctx: Ctx)
    requires Good(n, y, sx, sy)
    ensures var o := Send(n, ctx, Pong); Good(o.node, y, With(sx, o.out), sy)
  {
    hide Good;
    NoteGood(n, y, sx, sy, ctx, Pong);
  }

  lemma ClosedGood(n: NodeState, y: P.Core, sx: Sent, sy: Sent)
    requires Good(n, y, sx, sy)
    ensures var o := HandleContactClose(n); Good(o.node, y, With(sx, o.out), sy)
  {
    hide Good;
    if n.contact.Some? {
      MarkedGood(n, y, sx, sy, true, n.contact.value.diverged);
    }
  }

  // ----- receiving -----

  /** Storing what was seen and answered changes nothing the protocol state shows. */
  lemma ProcessedGood(n: NodeState, y: P.Core, sx: Sent, sy: Sent, env: Envelope, out: Option<Envelope>)
    requires Good(n, y, sx, sy) && n.lastSeq == env.seqNo && (out.Some? ==> out.value in sx)
    ensures Good(Processed(n, env, out), y, sx, sy)
  {
    hide P.Inv, Kept, Linked, Logged;
    var n' := Processed(n, env, out);
    assert CoreOf(n') == CoreOf(n);
    SameLinks(n, n');
    MarkedKept(n, n');
    ProcessedLogged(n, sx, env, out);
  }

  lemma ProcessedLogged(n: NodeState, sx: Sent, env: Envelope, out: Option<Envelope>)
    requires Logged(n, sx) && (out.Some? ==> out.value in sx)
    ensures Logged(Processed(n, env, out), sx)
  {
  }

  lemma AtGood(n: NodeState, y: P.Core, sx: Sent, sy: Sent, i: nat)
    requires Good(n, y, sx, sy) && n.lastSeq <= i < |sy|
    ensures Good(At(n, i + 1), y, sx, sy) && M.Readable(CoreOf(At(n, i + 1)), y, sx, sy, i)
  {
    hide P.Inv, Kept, Linked, Logged, M.Readable;
    var n' := At(n, i + 1);
    assert CoreOf(n') == M.Seen(CoreOf(n), i + 1);
    M.Reading(CoreOf(n), y, sx, sy, i);
    SameLinks(n, n');
    AtKept(n, i + 1);
    SameLogged(n, n', sx);
  }

  /** Processing one envelope of the peer, at any time, keeps the invariant; whatever is
      answered is in the sent log, whether it was just written or is sent again. */
  lemma ProcessInboundGood(n: NodeState, y: P.Core, sx: Sent, sy: Sent, i: nat, ctx: Ctx, autoSeed: int)
    requires Good(n, y, sx, sy) && i < |sy| && Numbered(sy)
    ensures var r := ProcessInbound(n, sy[i], ctx, autoSeed);
            var sx' := SentAfter(sx, n, r.node, r.out);
            Good(r.node, y, sx', sy) && (r.out.Some? ==> r.out.value in sx')
  {
    hide Good, Route, M.Readable;
    var env := sy[i];
    if Validate(env, n.seen, n.lastSeq, ctx.now).Ok? {
      AtGood(n, y, sx, sy, i);
      RouteAt(n, env.body, ctx, autoSeed, i + 1);
      var n1 := At(n, i + 1);
      var o := Route(n, env.body, ctx, autoSeed);
      RouteGood(n1, y, sx, sy, i, ctx, autoSeed);
      RouteStays(n, env.body, ctx, autoSeed);
      var n2 := At(o.node, i + 1);
      assert SentAfter(sx, n, o.node, o.out) == SentAfter(sx, n1, n2, o.out);
      ProcessedGood(n2, y, SentAfter(sx, n, o.node, o.out), sy, env, o.out);
      assert Processed(o.node, env, o.out) == Processed(n2, env, o.out);
    } else if env.id in n.replies {
      AnswerIsSent(n, y, sx, sy, env.id);
    }
  }

  lemma AnswerIsSent(n: NodeState, y: P.Core, sx: Sent, sy: Sent, id: Id)
    requires Good(n, y, sx, sy) && id in n.replies
    ensures n.replies[id] in sx
  {
    hide P.Inv, Linked, Kept;
  }

  lemma RouteStays(n: NodeState, b: Body, ctx: Ctx, autoSeed: int)
    ensures Route(n, b, ctx, autoSeed).node.lastSeq == n.lastSeq
  {
    RouteAt(n, b, ctx, autoSeed, n.lastSeq);
    hide Route;
    assert At(n, n.lastSeq) == n;
  }

  lemma AtKept(n: NodeState, k: nat)
    requires Kept(n)
    ensures Kept(At(n, k))
  {
    hide Sound, CountOf;
    assert P.Funded(CoreOf(At(n, k)));
    SameMoneyKept(n, At(n, k));
  }
}
