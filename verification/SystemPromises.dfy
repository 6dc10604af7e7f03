/** Promises between two honest nodes: what was offered in good faith is never refused for a
    stale pool, a wrong price or a short wallet, and locks are held only for live operations. */
module SystemPromises {
  import opened Wrappers
  import opened PoolPricing
  import opened ChannelHistory
  import opened Ledgers
  import opened Supply
  import opened TransferStates
  import opened Messages
  import opened NodeSpec
  import opened NodeInvariant
  import opened NodeRecords
  import opened NodeSteps
  import opened NodeOpenSteps
  import opened NodeTransferSteps
  import opened NodeCommitSteps
  import opened NodeAdjustSteps
  import opened NodeInbound
  import opened Systems
  import opened SystemInvariant
  import opened SystemRuns
  import opened SystemSafety
  import P = ProtocolInvariant
  import M = ProtocolMoves

  // ----- locks -----

  /** An operation that is still under way at this node. */
  predicate LiveOperation(n: NodeState, id: Id) {
    || (id in n.transfers && n.transfers[id].outgoing
        && (n.transfers[id].state.Proposed? || n.transfers[id].state.Committed?))
    || (id in n.transfers && !n.transfers[id].outgoing && n.transfers[id].state.Accepted?)
    || (n.contact.Some? && n.contact.value.pendingAdjust == Some(id))
  }

  /** A contact is busy exactly while one operation is live, and its lock names that one. */
  lemma LockIsLive(me: Side, n: NodeState, peer: Side, m: NodeState)
    requires Met(me, n, peer, m) && n.contact.Some?
    ensures n.contact.value.busy <==> exists id :: LiveOperation(n, id)
    ensures forall id :: LiveOperation(n, id) <==> n.contact.value.busyTransfer == Some(id)
  {
    hide Met, Kept, P.Self, P.Pairing, P.Agree, P.Opened, P.Pinned, Rooted, Reserved;
    MetPair(me, n, peer, m);
    LockedIsLive(n);
  }

  lemma LockedIsLive(n: NodeState)
    requires n.contact.Some? && ContactOk(n.contact.value) && P.Locked(CoreOf(n)) && P.LegStates(CoreOf(n))
    ensures n.contact.value.busy <==> exists id :: LiveOperation(n, id)
    ensures forall id :: LiveOperation(n, id) <==> n.contact.value.busyTransfer == Some(id)
  {
    hide Rooted, Reserved;
    var x := CoreOf(n);
    forall id ensures LiveOperation(n, id) <==> n.contact.value.busyTransfer == Some(id) {
      if id in n.transfers {
        assert x.legs[id] == LegOf(n.transfers[id]);
      }
    }
    if n.contact.value.busy {
      assert LiveOperation(n, n.contact.value.busyTransfer.value);
    }
  }

  predicate Same(n: NodeState, n': NodeState, t: Id) {
    && t in n.transfers && t in n'.transfers
    && n'.transfers[t].(state := n.transfers[t].state) == n.transfers[t]
    && (n'.transfers[t].state == n.transfers[t].state || n'.transfers[t].state.Expired?)
  }

  /** Expiring closes a due transfer and leaves everything else alone. */
  lemma ExpiredStates(n: NodeState, id: Id, now: int)
    ensures var n' := ExpireIfDue(n, id, now);
            && (n'.contact.Some? <==> n.contact.Some?)
            && (n.contact.Some? ==> n'.contact.value.pendingAdjust == n.contact.value.pendingAdjust)
            && (forall t :: t in n.transfers ==> Same(n, n', t)) && (forall t :: t in n'.transfers ==> t in n.transfers)
            && (id in n.transfers && now > n.transfers[id].expires ==>
                 !n'.transfers[id].state.Proposed? && !n'.transfers[id].state.Accepted?)
  {
  }

  /** A sweep leaves no listed, due transfer waiting. */
  lemma {:induction false} SweptStates(n: NodeState, ids: seq<Id>, now: int)
    ensures var n' := Sweep(n, ids, now);
            && (n'.contact.Some? <==> n.contact.Some?)
            && (n.contact.Some? ==> n'.contact.value.pendingAdjust == n.contact.value.pendingAdjust)
            && (forall t :: t in n'.transfers ==> t in n.transfers)
            && forall t :: t in n.transfers ==>
                 && Same(n, n', t)
                 && (t in ids && now > n.transfers[t].expires ==>
                      !n'.transfers[t].state.Proposed? && !n'.transfers[t].state.Accepted?)
  {
    hide ExpireIfDue;
    if ids != [] {
      var front, id := ids[..|ids| - 1], ids[|ids| - 1];
      SweptStates(n, front, now);
      ExpiredStates(Sweep(n, front, now), id, now);
      assert forall t :: t in ids ==> t in front || t == id;
    }
  }

  /** After a sweep past every expiry only a committed payment or a pending adjustment still
      holds a lock. */
  lemma SweptLocks(me: Side, n: NodeState, peer: Side, m: NodeState, ids: seq<Id>, now: int)
    requires Met(me, n, peer, m) && forall t :: t in n.transfers ==> t in ids && now > n.transfers[t].expires
    ensures var n' := Sweep(n, ids, now);
            n'.contact.Some? && n'.contact.value.busy ==>
              var id := n'.contact.value.busyTransfer;
              && id.Some?
              && (n'.contact.value.pendingAdjust == id
                  || (id.value in n'.transfers && n'.transfers[id.value].outgoing
                      && n'.transfers[id.value].state.Committed?))
  {
    hide Met, Good, Sweep;
    MetGood(me, n, peer, m);
    SweepGood(n, CoreOf(m), me.sent, peer.sent, ids, now);
    SweptStates(n, ids, now);
    var n' := Sweep(n, ids, now);
    if n'.contact.Some? {
      GoodLocks(n', CoreOf(m), me.sent, peer.sent);
    }
  }

  lemma GoodLocks(n: NodeState, y: P.Core, sx: Sent, sy: Sent)
    requires Good(n, y, sx, sy) && n.contact.Some?
    ensures n.contact.value.busy <==> n.contact.value.busyTransfer.Some?
    ensures n.contact.value.busy ==> LiveOperation(n, n.contact.value.busyTransfer.value)
  {
    hide Kept, Logged, P.Pairing, P.Flow, P.Opened, P.Pinned, P.Backed, P.Ordered, P.Distinct, Rooted, Reserved, CoreOf;
    LockedIsLive(n);
  }

  // ----- an honest proposal fits -----

  /** A proposal that reaches an idle payee was priced at the payee's own reserves. */
  lemma ProposalFits(x: P.Core, y: P.Core, sx: Sent, sy: Sent, i: nat)
    requires P.Pairing(x, y) && P.Pairing(y, x) && P.Agree(x, y) && P.Opened(y) && P.Opened(x) && P.Pinned(y)
             && P.Priced(y)
    requires i < |sy| && sy[i].body.TransferPropose? && M.Readable(x, y, sx, sy, i)
    requires x.hist != [] && x.lock.None? && x.pending.None?
    ensures x.terms.Some? && sy[i].body.opSeq + 1 == |x.hist|
    ensures PriceFor(Reserves(x.hist), !x.terms.value.proposer, sy[i].body.src) == Success(sy[i].body.dst)
  {
    hide Reserves, PriceFor, P.Matched, P.Outcomes;
    var t := sy[i].body.transferId;
    var k := y.legs[t].opSeq;
    assert k + 1 == |x.hist| && k < |y.hist|;
    assert y.hist[..k + 1] == x.hist by {
      if |y.hist| > |x.hist| {
        assert P.Ahead(y, x);
      } else {
        assert y.hist[..|y.hist|] == y.hist;
      }
    }
    assert P.Opening(x, y) && P.Opening(y, x);
  }

  /** On an open, idle contact an honest proposal is refused for one reason only: the payee does
      not know the member.  It is never stale, malformed or wrongly priced. */
  lemma ProposalIsTaken(n: NodeState, m: NodeState, sx: Sent, sy: Sent, i: nat, ctx: Ctx)
    requires Good(n, CoreOf(m), sx, sy) && Linked(m) && Kept(m)
    requires i < |sy| && sy[i].body.TransferPropose? && M.Readable(CoreOf(n), CoreOf(m), sx, sy, i)
    requires OpenAndIdle(n, ctx.now)
    ensures var b := sy[i].body;
            var o := HandleTransferPropose(n, b, ctx);
            && o.out.Some?
            && o.out.value.body == if LocalPart(b.toMember) in n.members then TransferAccept(b.transferId)
                                   else TransferReject(b.transferId, UnknownMember)
  {
    hide Good, Linked, Kept, ReleaseIfBusyExpired, M.Readable, Reserves, PriceFor, PoolPrice;
    var y := CoreOf(m);
    var n1 := ReleaseIfBusyExpired(n, ctx.now);
    ReleaseGood(n, y, sx, sy, ctx.now);
    Unreleased(n, ctx.now);
    ReadableAfterRelease(n, y, sx, sy, i, ctx.now);
    Idle(n1, y, sx, sy);
    FitsHere(n1, m, sx, sy, i);
  }

  lemma FitsHere(n: NodeState, m: NodeState, sx: Sent, sy: Sent, i: nat)
    requires Good(n, CoreOf(m), sx, sy) && Linked(m) && Kept(m)
    requires i < |sy| && sy[i].body.TransferPropose? && M.Readable(CoreOf(n), CoreOf(m), sx, sy, i)
    requires n.contact.Some? && n.contact.value.active && !n.contact.value.busy
    ensures sy[i].body.opSeq == n.contact.value.opSeq && sy[i].body.src > 0
    ensures PriceIncoming(n.contact.value, sy[i].body.src) == Success(sy[i].body.dst)
  {
    hide P.Backed, P.Ordered, P.Distinct, P.LegStates, P.Locked, P.Flow, P.Opened, P.Pinned, P.Pairing, P.Agree,
      P.Priced, Linked, Kept, Logged, M.Readable, Reserves, PriceFor, PoolPrice, CoreOf;
    var x, y := CoreOf(n), CoreOf(m);
    IdleHere(n, y, sx, sy);
    PricedHere(m);
    ProposalFits(x, y, sx, sy, i);
    QuotedNow(n, false, sy[i].body.src);
    SourceIsPositive(n, sy[i].body.src, sy[i].body.dst);
  }

  lemma IdleHere(n: NodeState, y: P.Core, sx: Sent, sy: Sent)
    requires Good(n, y, sx, sy) && n.contact.Some? && n.contact.value.active && !n.contact.value.busy
    ensures Linked(n) && CoreOf(n).hist != [] && CoreOf(n).lock.None? && CoreOf(n).pending.None?
    ensures n.contact.value.opSeq + 1 == |CoreOf(n).hist| && CoreOf(n).hist == n.contact.value.history
    ensures CoreOf(n).terms.Some? && CoreOf(n).terms.value.proposer == n.contact.value.iAmProposer
  {
    Idle(n, y, sx, sy);
    hide P.Inv, Kept, Logged, Linked;
  }

  lemma PricedHere(m: NodeState)
    requires Kept(m)
    ensures P.Priced(CoreOf(m))
  {
    hide Sound, CountOf, CoreOf, P.Priced, P.Covered, P.Charged;
  }

  lemma SourceIsPositive(n: NodeState, src: int, dst: int)
    requires n.contact.Some? && PriceIncoming(n.contact.value, src) == Success(dst)
    ensures src > 0
  {
  }

  /** An accepted envelope is handled as if the position had moved first. */
  lemma HandledAt(me: Side, n: NodeState, peer: Side, m: NodeState, i: nat, ctx: Ctx, autoSeed: int)
    requires Met(me, n, peer, m) && i < |peer.sent|
    requires Validate(peer.sent[i], n.seen, n.lastSeq, ctx.now).Ok?
    ensures var n1 := At(n, i + 1);
            && Good(n1, CoreOf(m), me.sent, peer.sent)
            && M.Readable(CoreOf(n1), CoreOf(m), me.sent, peer.sent, i)
            && ProcessInbound(n, peer.sent[i], ctx, autoSeed).out == Route(n1, peer.sent[i].body, ctx, autoSeed).out
  {
    hide Met, Good, M.Readable, Route, Numbered;
    MetGood(me, n, peer, m);
    OutSeqIs(m, CoreOf(n), peer.sent, me.sent);
    PeerPosition(peer.sent, i);
    AtGood(n, CoreOf(m), me.sent, peer.sent, i);
    RouteAt(n, peer.sent[i].body, ctx, autoSeed, i + 1);
  }

  lemma PeerPosition(sy: Sent, i: nat)
    requires Numbered(sy) && i < |sy|
    ensures sy[i].seqNo == i + 1
  {
  }

  /** Whether this node can take up an operation: an open contact, no lock that outlasts the clock. */
  predicate OpenAndIdle(n: NodeState, now: int) {
    && n.contact.Some? && n.contact.value.active && !n.contact.value.closed && !n.contact.value.diverged
    && ReleaseIfBusyExpired(n, now).contact.Some? && !ReleaseIfBusyExpired(n, now).contact.value.busy
  }

  lemma IdleAt(n: NodeState, now: int, k: nat)
    ensures OpenAndIdle(At(n, k), now) <==> OpenAndIdle(n, now)
  {
    hide ReleaseIfBusyExpired;
    ReleaseAt(n, now, k);
  }

  /** In every reachable state an idle payee takes a proposal of its honest peer unless it does
      not know the member: never stale-pool, price-mismatch, dust or malformed. */
  lemma ProposalNeverStale(me: Side, n: NodeState, peer: Side, m: NodeState, i: nat, ctx: Ctx, autoSeed: int)
    requires Met(me, n, peer, m) && i < |peer.sent| && peer.sent[i].body.TransferPropose?
    requires Validate(peer.sent[i], n.seen, n.lastSeq, ctx.now).Ok? && OpenAndIdle(n, ctx.now)
    ensures var b := peer.sent[i].body;
            var r := ProcessInbound(n, peer.sent[i], ctx, autoSeed);
            && r.out.Some?
            && r.out.value.body == if LocalPart(b.toMember) in n.members then TransferAccept(b.transferId)
                                   else TransferReject(b.transferId, UnknownMember)
  {
    hide Met, Good, M.Readable, HandleTransferPropose, ProcessInbound, LocalPart, Linked, Kept, CoreOf;
    HandledAt(me, n, peer, m, i, ctx, autoSeed);
    MetPair(me, n, peer, m);
    IdleAt(n, ctx.now, i + 1);
    ProposalIsTaken(At(n, i + 1), m, me.sent, peer.sent, i, ctx);
  }

  // ----- an honest adjustment fits -----

  lemma AdjustmentFits(x: P.Core, y: P.Core, sx: Sent, sy: Sent, i: nat)
    requires P.Pairing(x, y) && P.Pairing(y, x) && P.Agree(x, y) && P.Opened(y) && P.Locked(y) && P.Covered(y)
    requires i < |sy| && sy[i].body.ReserveAdjust? && M.Readable(x, y, sx, sy, i)
    requires x.hist != [] && x.lock.None? && x.pending.None?
    ensures var b := sy[i].body;
            && x.terms.Some? && b.opSeq + 1 == |x.hist| && b.myDelta != 0 && b.adjustId !in x.applied
            && P.Theirs(x, Reserves(x.hist)) + b.myDelta >= 0
  {
    hide Reserves, P.Matched, P.Outcomes;
    assert P.Ahead(x, y) && P.Ahead(y, x) && P.Opening(x, y) && P.Opening(y, x);
    assert !P.InCommit(y);
  }

  lemma AdjustmentIsTaken(n: NodeState, m: NodeState, sx: Sent, sy: Sent, i: nat, ctx: Ctx)
    requires Good(n, CoreOf(m), sx, sy) && Kept(m) && P.Opened(CoreOf(m)) && P.Locked(CoreOf(m))
    requires i < |sy| && sy[i].body.ReserveAdjust? && M.Readable(CoreOf(n), CoreOf(m), sx, sy, i)
    requires OpenAndIdle(n, ctx.now)
    ensures var b := sy[i].body;
            var o := HandleReserveAdjust(n, b, ctx);
            o.out.Some? && o.out.value.body == ReserveAccept(n.contact.value.id, b.adjustId)
  {
    hide Good, Kept, ReleaseIfBusyExpired, M.Readable, P.Opened, P.Locked, CoreOf, ApplyAdjust;
    var y := CoreOf(m);
    var n1 := ReleaseIfBusyExpired(n, ctx.now);
    ReleaseGood(n, y, sx, sy, ctx.now);
    Unreleased(n, ctx.now);
    ReadableAfterRelease(n, y, sx, sy, i, ctx.now);
    AdjustFitsHere(n1, m, sx, sy, i);
  }

  lemma AdjustFitsHere(n: NodeState, m: NodeState, sx: Sent, sy: Sent, i: nat)
    requires Good(n, CoreOf(m), sx, sy) && Kept(m) && P.Opened(CoreOf(m)) && P.Locked(CoreOf(m))
    requires i < |sy| && sy[i].body.ReserveAdjust? && M.Readable(CoreOf(n), CoreOf(m), sx, sy, i)
    requires n.contact.Some? && n.contact.value.active && !n.contact.value.busy
    ensures var b, c := sy[i].body, n.contact.value;
            b.opSeq == c.opSeq && b.myDelta != 0 && b.adjustId !in c.appliedAdjusts
              && c.peerReserveOfMe + b.myDelta >= 0
  {
    hide P.Self, P.Flow, P.Opened, P.Locked, P.Pairing, P.Agree, P.Covered, Kept, Logged, Linked, M.Readable,
      Reserves, CoreOf;
    var x, y := CoreOf(n), CoreOf(m);
    IdleHere(n, y, sx, sy);
    CoveredHere(m);
    AdjustmentFits(x, y, sx, sy, i);
    MirroredHere(n);
  }

  lemma CoveredHere(m: NodeState)
    requires Kept(m)
    ensures P.Covered(CoreOf(m))
  {
    hide Sound, CountOf, CoreOf, P.Priced, P.Covered, P.Charged;
  }

  lemma MirroredHere(n: NodeState)
    requires Linked(n) && n.contact.Some?
    ensures P.Theirs(CoreOf(n), Reserves(CoreOf(n).hist)) == n.contact.value.peerReserveOfMe
    ensures CoreOf(n).applied == n.contact.value.appliedAdjusts
  {
    hide Rooted, Reserves;
  }

  /** In every reachable state an idle node mirrors an adjustment of its honest peer: never
      stale-pool, insufficient-reserve or malformed. */
  lemma AdjustmentNeverStale(me: Side, n: NodeState, peer: Side, m: NodeState, i: nat, ctx: Ctx, autoSeed: int)
    requires Met(me, n, peer, m) && i < |peer.sent| && peer.sent[i].body.ReserveAdjust?
    requires Validate(peer.sent[i], n.seen, n.lastSeq, ctx.now).Ok? && OpenAndIdle(n, ctx.now)
    ensures var r := ProcessInbound(n, peer.sent[i], ctx, autoSeed);
            r.out.Some? && r.out.value.body == ReserveAccept(n.contact.value.id, peer.sent[i].body.adjustId)
  {
    hide Met, Good, M.Readable, HandleReserveAdjust, ProcessInbound, Linked, Kept, CoreOf, P.Opened, P.Locked;
    HandledAt(me, n, peer, m, i, ctx, autoSeed);
    MetLocal(me, n, peer, m);
    IdleAt(n, ctx.now, i + 1);
    AdjustmentIsTaken(At(n, i + 1), m, me.sent, peer.sent, i, ctx);
  }

  lemma MetLocal(me: Side, n: NodeState, peer: Side, m: NodeState)
    requires Met(me, n, peer, m)
    ensures Kept(m) && P.Opened(CoreOf(m)) && P.Locked(CoreOf(m))
  {
    hide Met, Linked, Kept, P.Backed, P.Ordered, P.Distinct, P.Opened, P.Locked, P.LegStates, P.Pinned, P.Pairing,
      P.Agree, CoreOf;
    MetPair(me, n, peer, m);
  }

  // ----- accepting is a promise -----

  /** The ledger never refuses a leg: no handler ever answers with an internal error. */
  lemma RouteNeverFails(n: NodeState, y: P.Core, sx: Sent, sy: Sent, i: nat, ctx: Ctx, autoSeed: int)
    requires Good(n, y, sx, sy) && i < |sy| && M.Readable(CoreOf(n), y, sx, sy, i)
    requires sy[i].body.TransferCommit? ==> forall id :: id in n.transfers && n.transfers[id].receipt.Some? ==>
               n.transfers[id].receipt.value.body != ErrorReply(Internal)
    ensures var o := Route(n, sy[i].body, ctx, autoSeed); o.out.Some? ==> o.out.value.body != ErrorReply(Internal)
  {
    hide Good, M.Readable, HandleContactPropose, HandleContactAccept, HandleTransferPropose, HandleTransferAccept,
      HandleTransferReject, HandleTransferCommit, HandleTransferReceipt, HandleTransferAbort, HandleReserveAdjust,
      HandleReserveAccept;
    var b := sy[i].body;
    match b
    case ContactPropose(_, _) => SeedNeverFails(n, y, sx, sy, b, ctx, autoSeed);
    case ContactAccept(_, _) => ActivationNeverFails(n, y, sx, sy, b, ctx);
    case TransferPropose(_, _, _, _, _, _, _, _) => AnswersPlainly(n, b, ctx);
    case TransferAccept(_) => AcceptNeverFails(n, y, sx, sy, b, ctx);
    case TransferCommit(_) => CommitNeverFails(n, y, sx, sy, b, ctx);
    case TransferReceipt(_) => AnswersPlainly(n, b, ctx);
    case ReserveAdjust(_, _, _, _) => AnswersPlainly(n, b, ctx);
    case ReserveAccept(_, _) => BookingNeverFails(n, y, sx, sy, b, ctx);
    case _ => AnswersPlainly(n, b, ctx);
  }

  lemma AnswersPlainly(n: NodeState, b: Body, ctx: Ctx)
    ensures b.TransferPropose? ==>
              var o := HandleTransferPropose(n, b, ctx); o.out.Some? ==> !o.out.value.body.ErrorReply?
    ensures b.TransferReceipt? ==>
              var o := HandleTransferReceipt(n, b, ctx); o.out.Some? ==> o.out.value.body != ErrorReply(Internal)
    ensures b.ReserveAdjust? ==>
              var o := HandleReserveAdjust(n, b, ctx); o.out.Some? ==> o.out.value.body != ErrorReply(Internal)
    ensures b.TransferReject? ==> HandleTransferReject(n, b).out.None?
    ensures b.TransferAbort? ==> HandleTransferAbort(n, b).out.None?
  {
    hide ReleaseIfBusyExpired, ApplyAdjust, SetState, ReleaseFor, PoolPrice;
  }

  lemma SeedNeverFails(n: NodeState, y: P.Core, sx: Sent, sy: Sent, b: Body, ctx: Ctx, autoSeed: int)
    requires Good(n, y, sx, sy) && b.ContactPropose?
    ensures var o := HandleContactPropose(n, b, ctx, autoSeed); o.out.Some? ==> o.out.value.body != ErrorReply(Internal)
  {
    hide Good, ApplySeed, SeedLeg;
    if autoSeed > 0 && n.contact.None? {
      SeedingFits(n, y, sx, sy, ctx, autoSeed);
    }
  }

  lemma SeedingFits(n: NodeState, y: P.Core, sx: Sent, sy: Sent, ctx: Ctx, autoSeed: int)
    requires Good(n, y, sx, sy) && autoSeed > 0 && n.contact.None?
    ensures SeedLeg(n, ctx, autoSeed).Success?
  {
    hide P.Inv, Linked, Logged, Sound, CountOf, P.Funded, Appended;
    TwoLegsBooked(n.book, ctx, ContactSeed, None, Wallet(n), autoSeed, Issuance);
  }

  lemma ActivationNeverFails(n: NodeState, y: P.Core, sx: Sent, sy: Sent, b: Body, ctx: Ctx)
    requires Good(n, y, sx, sy) && b.ContactAccept?
    ensures var o := HandleContactAccept(n, b, ctx); o.out.Some? ==> o.out.value.body != ErrorReply(Internal)
  {
    hide Good, ApplySeed, SeedLeg;
    if AwaitsSeed(n) {
      SeedBooked(n, y, sx, sy, ctx);
    }
  }

  lemma AcceptNeverFails(n: NodeState, y: P.Core, sx: Sent, sy: Sent, b: Body, ctx: Ctx)
    requires Good(n, y, sx, sy) && b.TransferAccept?
    ensures var o := HandleTransferAccept(n, b, ctx); o.out.Some? ==> o.out.value.body != ErrorReply(Internal)
  {
    hide Good, CommitOutgoing, ExpireIfDue, CommittedNode;
    var id := b.transferId;
    if id in n.transfers && n.transfers[id].outgoing && n.transfers[id].state.Proposed? && n.contact.Some? {
      var book := CommitRuns(n, y, sx, sy, id, ctx);
    }
  }

  lemma CommitNeverFails(n: NodeState, y: P.Core, sx: Sent, sy: Sent, b: Body, ctx: Ctx)
    requires Good(n, y, sx, sy) && b.TransferCommit?
    requires forall id :: id in n.transfers && n.transfers[id].receipt.Some? ==>
               n.transfers[id].receipt.value.body != ErrorReply(Internal)
    ensures var o := HandleTransferCommit(n, b, ctx); o.out.Some? ==> o.out.value.body != ErrorReply(Internal)
  {
    hide Good, SettleIncoming, SettledNode;
    var id := b.transferId;
    if id in n.transfers && !n.transfers[id].outgoing && n.transfers[id].state.Accepted? && n.contact.Some? {
      var book := SettleRuns(n, y, sx, sy, id, ctx);
    }
  }

  lemma BookingNeverFails(n: NodeState, y: P.Core, sx: Sent, sy: Sent, b: Body, ctx: Ctx)
    requires Good(n, y, sx, sy) && b.ReserveAccept?
    ensures var o := HandleReserveAccept(n, b, ctx); o.out.Some? ==> o.out.value.body != ErrorReply(Internal)
  {
    hide Good, Appended, ApplyAdjust;
    if n.contact.Some? && n.contact.value.pendingAdjust == Some(b.adjustId) {
      AdjustBooked(n, y, sx, sy, ctx, b.adjustId);
    }
  }
}
