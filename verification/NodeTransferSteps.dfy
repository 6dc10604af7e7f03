/** The transfer handlers as sequences of protocol moves. */
module NodeTransferSteps {
  import opened Wrappers
  import opened PoolPricing
  import opened ChannelHistory
  import opened Ledgers
  import opened Supply
  import opened TransferStates
  import opened Messages
  import opened NodeSpec
  import opened NodeInvariant
  import opened NodeRecords
  import opened NodeSteps
  import P = ProtocolInvariant
  import M = ProtocolMoves
  import F = ProtocolFunds

  // ----- taking up a transfer -----

  function TakenUp(n: NodeState, id: Id, t: Transfer): NodeState
    requires n.contact.Some?
  {
    n.(transfers := n.transfers[id := t], contact := Some(LockedBy(n.contact.value, id)))
  }

  lemma TakenUpLinks(n: NodeState, id: Id, t: Transfer)
    requires Linked(n) && n.contact.Some? && t.contactId == n.contact.value.id
    ensures Linked(TakenUp(n, id, t))
    ensures CoreOf(TakenUp(n, id, t)) == M.AddLeg(CoreOf(n), id, LegOf(t))
  {
    LegsUpdate(n.transfers, id, t);
  }

  /** An idle active contact: nothing is locked or pending, and it stands at its last operation. */
  lemma Idle(n: NodeState, y: P.Core, sx: Sent, sy: Sent)
    requires Good(n, y, sx, sy) && n.contact.Some? && n.contact.value.active && !n.contact.value.busy
    ensures var x := CoreOf(n);
            x.hist != [] && x.lock.None? && x.pending.None? && n.contact.value.opSeq + 1 == |x.hist|
    ensures n.contact.value.pendingAdjust.None?
  {
    hide Kept, Logged;
    assert P.Locked(CoreOf(n));
  }

  lemma Unreleased(n: NodeState, now: int)
    ensures var n' := ReleaseIfBusyExpired(n, now);
            && n'.transfers.Keys == n.transfers.Keys && n'.lastSeq == n.lastSeq && n'.outSeq == n.outSeq
            && n'.book == n.book && n'.peerHost == n.peerHost && n'.members == n.members
            && (n'.contact.Some? <==> n.contact.Some?)
            && (n.contact.Some? ==>
                 n'.contact.value == n.contact.value || n'.contact.value == Unlocked(n.contact.value))
            && n'.replies == n.replies && n'.seen == n.seen
  {
  }

  /** An id that nothing in the pair has used. */
  ghost predicate Fresh(n: NodeState, y: P.Core, sx: Sent, sy: Sent, id: Id) {
    && id !in n.transfers && id !in y.legs && id !in y.applied && id !in CoreOf(n).applied
    && M.Unmentioned(id, sx) && M.Unmentioned(id, sy)
  }

  lemma FreshAfterRelease(n: NodeState, y: P.Core, sx: Sent, sy: Sent, id: Id, now: int)
    requires Fresh(n, y, sx, sy, id)
    ensures Fresh(ReleaseIfBusyExpired(n, now), y, sx, sy, id)
  {
    Unreleased(n, now);
    assert id in ReleaseIfBusyExpired(n, now).transfers <==> id in ReleaseIfBusyExpired(n, now).transfers.Keys;
  }

  lemma StartTransferGood(n: NodeState, y: P.Core, sx: Sent, sy: Sent, ctx: Ctx, from: string, to: string,
                          src: int, id: Id)
    requires Good(n, y, sx, sy) && Fresh(n, y, sx, sy, id)
    ensures var d := StartTransfer(n, ctx, from, to, src, id); Good(d.node, y, With(sx, d.out), sy)
  {
    hide Good, Fresh, ExpireIfDue, PoolPrice;
    var n1 := ReleaseIfBusyExpired(n, ctx.now);
    ReleaseGood(n, y, sx, sy, ctx.now);
    FreshAfterRelease(n, y, sx, sy, id, ctx.now);
    Unreleased(n, ctx.now);
    var d := StartTransfer(n, ctx, from, to, src, id);
    if d.out.Some? {
      var c := n1.contact.value;
      var t := Transfer(c.id, true, Proposed, c.opSeq, from, to, src, PriceOutgoing(c, src).value,
                        ctx.now + HOUR, None);
      StartGood(n1, y, sx, sy, ctx, id, t);
    }
  }

  /** Prices computed from the counters are prices for the reserves of the history. */
  lemma QuotedNow(n: NodeState, outgoing: bool, src: int)
    requires Linked(n) && n.contact.Some?
    ensures (if outgoing then PriceOutgoing(n.contact.value, src) else PriceIncoming(n.contact.value, src))
            == PriceFor(Reserves(n.contact.value.history), outgoing == n.contact.value.iAmProposer, src)
  {
    hide PoolPrice, Reserves, Rooted;
  }

  lemma TakenUpKept(n: NodeState, id: Id, t: Transfer)
    requires Linked(n) && Kept(n) && n.contact.Some? && t.contactId == n.contact.value.id && id !in n.transfers
    requires if t.outgoing then t.state.Proposed? else t.state.Accepted?
    requires M.MayAdd(CoreOf(n), id, LegOf(t))
    requires (if t.outgoing then PriceOutgoing(n.contact.value, t.src) else PriceIncoming(n.contact.value, t.src))
             == Success(t.dst)
    ensures Kept(TakenUp(n, id, t))
  {
    hide Sound, CountOf, PoolPrice, Reserves, P.Funded, Linked, M.MayAdd, M.AddLeg;
    QuotedNow(n, t.outgoing, t.src);
    TakenUpLinks(n, id, t);
    F.AddFunded(CoreOf(n), id, LegOf(t));
    NewKept(n, TakenUp(n, id, t), id, t);
  }

  lemma StartGood(n: NodeState, y: P.Core, sx: Sent, sy: Sent, ctx: Ctx, id: Id, t: Transfer)
    requires Good(n, y, sx, sy) && Fresh(n, y, sx, sy, id)
    requires n.contact.Some? && n.contact.value.active && !n.contact.value.busy
    requires t.outgoing && t.state.Proposed? && t.contactId == n.contact.value.id && t.opSeq == n.contact.value.opSeq
    requires t.receipt.None? && PriceOutgoing(n.contact.value, t.src) == Success(t.dst)
    ensures var o := Send(TakenUp(n, id, t), ctx,
                          TransferPropose(id, t.contactId, t.opSeq, t.fromMember, t.toMember, t.src, t.dst, t.expires));
            Good(o.node, y, With(sx, o.out), sy)
  {
    hide P.Inv, Linked, Kept, Logged, PriceOutgoing;
    Idle(n, y, sx, sy);
    TakenUpLinks(n, id, t);
    TakenUpKept(n, id, t);
    var n1 := TakenUp(n, id, t);
    M.AddOutKeeps(CoreOf(n), y, sx, sy, id, LegOf(t));
    var b := TransferPropose(id, t.contactId, t.opSeq, t.fromMember, t.toMember, t.src, t.dst, t.expires);
    var o := Send(n1, ctx, b);
    M.ProposeKeeps(CoreOf(n1), y, sx, sy, o.out.value);
    SameLogged(n, n1, sx);
    SendLogged(n1, sx, ctx, b);
    SendKeeps(n1, ctx, b);
  }

  // ----- the payee's answer -----

  lemma TransferProposeGood(n: NodeState, y: P.Core, sx: Sent, sy: Sent, i: nat, ctx: Ctx)
    requires Good(n, y, sx, sy) && i < |sy| && n.lastSeq == i + 1 && sy[i].body.TransferPropose?
    requires M.Readable(CoreOf(n), y, sx, sy, i)
    ensures var o := HandleTransferPropose(n, sy[i].body, ctx); Good(o.node, y, With(sx, o.out), sy)
  {
    hide Good, ReleaseIfBusyExpired, PoolPrice, M.Readable;
    var b := sy[i].body;
    var n1 := ReleaseIfBusyExpired(n, ctx.now);
    ReleaseGood(n, y, sx, sy, ctx.now);
    Unreleased(n, ctx.now);
    ReadableAfterRelease(n, y, sx, sy, i, ctx.now);
    var o := HandleTransferPropose(n, b, ctx);
    if o.out.value.body.TransferReject? {
      var shut := n.contact.None? || !n.contact.value.active || n.contact.value.closed || n.contact.value.diverged;
      var n2 := if shut then n else n1;
      RejectGood(n2, y, sx, sy, i, ctx, o.out.value.body.code);
    } else {
      var c := n1.contact.value;
      var t := Transfer(c.id, false, Accepted, b.opSeq, b.fromMember, b.toMember, b.src, b.dst, b.expires, None);
      AcceptGood(n1, y, sx, sy, i, ctx, t);
    }
  }

  lemma ReadableAfterKill(x: P.Core, y: P.Core, sx: Sent, sy: Sent, i: nat, t: Id, s: State)
    requires i < |sy| && M.Readable(x, y, sx, sy, i)
    requires x.lock == Some(t) && t in x.legs && (x.legs[t].state.Proposed? || x.legs[t].state.Accepted?)
    requires s.Expired? || s.Aborted? || s.Rejected?
    ensures M.Readable(M.Kill(x, t, s), y, sx, sy, i)
  {
    assert !P.InCommit(x);
  }

  lemma ReadableAfterRelease(n: NodeState, y: P.Core, sx: Sent, sy: Sent, i: nat, now: int)
    requires Good(n, y, sx, sy) && i < |sy| && M.Readable(CoreOf(n), y, sx, sy, i)
    ensures M.Readable(CoreOf(ReleaseIfBusyExpired(n, now)), y, sx, sy, i)
  {
    hide Good, M.Readable, ExpireIfDue, M.Kill;
    if n.contact.Some? && n.contact.value.busyTransfer.Some? {
      var id := n.contact.value.busyTransfer.value;
      ExpireGood(n, y, sx, sy, id, now);
      if Due(n, id, now) {
        ReadableAfterKill(CoreOf(n), y, sx, sy, i, id, Expired);
      } else {
        NotDue(n, id, now);
      }
    }
  }

  lemma NotDue(n: NodeState, id: Id, now: int)
    requires !Due(n, id, now)
    ensures ExpireIfDue(n, id, now) == n
  {
  }

  lemma RejectGood(n: NodeState, y: P.Core, sx: Sent, sy: Sent, i: nat, ctx: Ctx, code: RejectCode)
    requires Good(n, y, sx, sy) && i < |sy| && n.lastSeq == i + 1 && sy[i].body.TransferPropose?
    requires M.Readable(CoreOf(n), y, sx, sy, i)
    ensures var o := RejectTransfer(n, ctx, sy[i].body.transferId, code); Good(o.node, y, With(sx, o.out), sy)
  {
    hide Good;
    assert sy[i].body.transferId !in CoreOf(n).legs;
    NoteGood(n, y, sx, sy, ctx, TransferReject(sy[i].body.transferId, code));
  }

  lemma AcceptGood(n: NodeState, y: P.Core, sx: Sent, sy: Sent, i: nat, ctx: Ctx, t: Transfer)
    requires Good(n, y, sx, sy) && i < |sy| && n.lastSeq == i + 1 && sy[i].body.TransferPropose?
    requires M.Readable(CoreOf(n), y, sx, sy, i)
    requires n.contact.Some? && n.contact.value.active && !n.contact.value.busy
    requires !t.outgoing && t.state.Accepted? && t.contactId == n.contact.value.id && t.opSeq == n.contact.value.opSeq
    requires t.opSeq == sy[i].body.opSeq && t.src == sy[i].body.src && t.dst == sy[i].body.dst
    requires t.receipt.None? && PriceIncoming(n.contact.value, t.src) == Success(t.dst)
    ensures var o := Send(TakenUp(n, sy[i].body.transferId, t), ctx, TransferAccept(sy[i].body.transferId));
            Good(o.node, y, With(sx, o.out), sy)
  {
    hide P.Inv, Linked, Kept, Logged, PriceIncoming;
    var id := sy[i].body.transferId;
    Idle(n, y, sx, sy);
    TakenUpLinks(n, id, t);
    NotKnown(n, y, sx, sy, i);
    TakenUpKept(n, id, t);
    var n1 := TakenUp(n, id, t);
    M.AddInKeeps(CoreOf(n), y, sx, sy, id, LegOf(t));
    var o := Send(n1, ctx, TransferAccept(id));
    M.AcceptKeeps(CoreOf(n1), y, sx, sy, o.out.value);
    SameLogged(n, n1, sx);
    SendLogged(n1, sx, ctx, TransferAccept(id));
    SendKeeps(n1, ctx, TransferAccept(id));
  }

  lemma NotKnown(n: NodeState, y: P.Core, sx: Sent, sy: Sent, i: nat)
    requires i < |sy| && sy[i].body.TransferPropose? && M.Readable(CoreOf(n), y, sx, sy, i)
    ensures sy[i].body.transferId !in n.transfers
  {
    assert sy[i].body.transferId !in CoreOf(n).legs;
  }
}
