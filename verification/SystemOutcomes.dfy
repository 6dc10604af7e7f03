/** When exactly an acceptance commits and a commit settles, in every reachable state and over
    every schedule. */
module SystemOutcomes {
  import opened Wrappers
  import opened ChannelHistory
  import opened Ledgers
  import opened TransferStates
  import opened Messages
  import opened NodeSpec
  import opened NodeInvariant
  import opened NodeRecords
  import opened NodeSteps
  import opened NodeCommitSteps
  import opened Systems
  import opened SystemInvariant
  import opened SystemSafety
  import opened SystemTurns
  import P = ProtocolInvariant

  // ----- receipts -----

  predicate HoldsReceipt(n: NodeState, t: Id) {
    t in n.transfers && n.transfers[t].receipt.Some? && n.transfers[t].receipt.value.body == TransferReceipt(t)
  }

  predicate PaidOutAt(n: NodeState, t: Id) {
    t in n.transfers && !n.transfers[t].outgoing && n.transfers[t].state.Settled?
  }

  /** Every payout of every run left its receipt beside the transfer. */
  lemma {:induction false} ReceiptIsKept(r: seq<System>, turns: seq<Turn>, k: nat, first: bool, n: NodeState, t: Id)
    requires Follows(r, turns) && k < |r| && Holds(Mine(r[k], first), n) && PaidOutAt(n, t)
    ensures HoldsReceipt(n, t)
  {
    hide Follows, AdjustsLike, Clock;
    if k == 0 {
      NothingAtFirst(r, turns, first, n);
    } else {
      Lengths(r, turns);
      var m := TurnFrame(r, turns, k - 1, first, n);
      if PaidOutAt(m, t) {
        ReceiptIsKept(r, turns, k - 1, first, m, t);
      }
      Advanced(m, n, Clock(turns[k - 1].act), t);
    }
  }

  lemma PayoutHoldsReceipt(me: Side, n: NodeState, peer: Side, m: NodeState, t: Id)
    requires Met(me, n, peer, m) && PaidOutAt(n, t)
    ensures HoldsReceipt(n, t)
  {
    hide IsRun, Follows, HoldsReceipt, PaidOutAt;
    var r: seq<System>, k: nat :| IsRun(r) && k < |r| && (r[k] == System(me, peer) || r[k] == System(peer, me));
    var turns := RunFollows(r);
    ReceiptIsKept(r, turns, k, r[k] == System(me, peer), n, t);
  }

  // ----- when a commit settles -----

  /** What a payee's own state makes of a commit its peer stands behind. */
  lemma CommitOutcome(n: NodeState, y: P.Core, sx: Sent, sy: Sent, t: Id, ctx: Ctx)
    requires Good(n, y, sx, sy) && t in n.transfers && !n.transfers[t].outgoing
    requires n.transfers[t].state.Accepted? || n.transfers[t].state.Settled? || n.transfers[t].state.Expired?
    ensures var o := HandleTransferCommit(n, TransferCommit(t), ctx);
            && t in o.node.transfers
            && match n.transfers[t].state
               case Accepted =>
                 PaidOutAt(o.node, t) && HoldsReceipt(o.node, t) && o.out == o.node.transfers[t].receipt
               case Settled => o == Outcome(n, n.transfers[t].receipt)
               case _ => o == SendError(n, ctx, BadState)
  {
    hide Good, SettleIncoming, SettledNode;
    GoodLinked(n, y, sx, sy);
    if n.transfers[t].state.Accepted? {
      var book := SettleRuns(n, y, sx, sy, t, ctx);
      SettledState(n, t, book);
    }
  }

  lemma SettledState(n: NodeState, t: Id, book: Book)
    requires t in n.transfers && n.contact.Some?
    ensures SettledNode(n, t, book).transfers == n.transfers[t := n.transfers[t].(state := Settled)]
  {
    hide ApplyTransfer;
  }

  /** In every reachable state a commit that passes the gate settles the payment exactly if the
      payee did not let it expire first; then it is answered with its receipt, and otherwise with
      an error that changes no transfer. */
  lemma CommitSettlesExactly(me: Side, n: NodeState, peer: Side, m: NodeState, i: nat, ctx: Ctx, autoSeed: int)
    requires Met(me, n, peer, m) && i < |peer.sent| && peer.sent[i].body.TransferCommit?
    requires Validate(peer.sent[i], n.seen, n.lastSeq, ctx.now).Ok?
    ensures var t := peer.sent[i].body.transferId;
            var r := ProcessInbound(n, peer.sent[i], ctx, autoSeed);
            && t in n.transfers && !n.transfers[t].outgoing
            && (StateOf(r.node, t) == Some(Settled) <==> StateOf(n, t) != Some(Expired))
            && (StateOf(n, t) != Some(Expired) ==> HoldsReceipt(r.node, t) && r.out == r.node.transfers[t].receipt)
            && (StateOf(n, t) == Some(Expired) ==>
                 r.node.transfers == n.transfers && r.out.Some? && r.out.value.body == ErrorReply(BadState))
  {
    hide Met, Good, HandleTransferCommit;
    var t := peer.sent[i].body.transferId;
    CommitFinds(me, n, peer, m, i);
    MetGood(me, n, peer, m);
    CommitOutcome(n, CoreOf(m), me.sent, peer.sent, t, ctx);
    if n.transfers[t].state.Settled? {
      PayoutHoldsReceipt(me, n, peer, m, t);
    }
  }

  /** A commit that was sent finds a payee that accepted, and then settled or gave up. */
  lemma CommitFinds(me: Side, n: NodeState, peer: Side, m: NodeState, i: nat)
    requires Met(me, n, peer, m) && i < |peer.sent| && peer.sent[i].body.TransferCommit?
    ensures var t := peer.sent[i].body.transferId;
            && t in n.transfers && !n.transfers[t].outgoing
            && (n.transfers[t].state.Accepted? || n.transfers[t].state.Settled? || n.transfers[t].state.Expired?)
  {
    hide Met;
    MetTurned(me, n, peer, m);
    CommitIsBacked(peer, m, me, n, i);
    OutcomesAgree(peer, m, me, n, peer.sent[i].body.transferId);
  }

  lemma CommitIsBacked(me: Side, n: NodeState, peer: Side, m: NodeState, i: nat)
    requires Met(me, n, peer, m) && i < |me.sent| && me.sent[i].body.TransferCommit?
    ensures var t := me.sent[i].body.transferId;
            t in n.transfers && n.transfers[t].outgoing && Spent(n.transfers[t].state)
  {
    hide Met, Linked, Kept, P.Pairing, P.Agree, P.LegStates, P.Local, P.Ordered, P.Distinct;
    MetPair(me, n, peer, m);
    assert P.Backs(CoreOf(n), me.sent[i].body);
    assert CoreOf(n).legs[me.sent[i].body.transferId] == LegOf(n.transfers[me.sent[i].body.transferId]);
  }

  /** A commit processed before any turn of the payee has read a clock past the expiry settles
      the payment, whatever was lost, repeated, overtaken or restarted on the way. */
  lemma CommitInTimeSettles(r: seq<System>, turns: seq<Turn>, k: nat, first: bool, i: nat, ctx: Ctx, autoSeed: int)
    requires Follows(r, turns) && k < |r|
    requires var me, peer := Mine(r[k], first), Theirs(r[k], first);
             && i < |peer.sent| && peer.sent[i].body.TransferCommit?
             && Validate(peer.sent[i], me.mem.seen, me.mem.lastSeq, ctx.now).Ok?
    requires var me, t := Mine(r[k], first), Theirs(r[k], first).sent[i].body.transferId;
             t in me.mem.transfers ==> !Overtaken(turns, k, first, me.mem.transfers[t].expires)
    ensures var me, peer := Mine(r[k], first), Theirs(r[k], first);
            StateOf(ProcessInbound(me.mem, peer.sent[i], ctx, autoSeed).node, peer.sent[i].body.transferId) ==
              Some(Settled)
  {
    hide Follows, Met, Validate, ProcessInbound, Overtaken;
    var me, peer := Mine(r[k], first), Theirs(r[k], first);
    var t := peer.sent[i].body.transferId;
    MetAt(r, turns, k, first, me.mem, peer.mem);
    CommitSettlesExactly(me, me.mem, peer, peer.mem, i, ctx, autoSeed);
    if StateOf(me.mem, t) == Some(Expired) {
      ClocksDecide(r, turns, k, first, me.mem, t);
    }
  }

  // ----- when an acceptance commits -----

  lemma AcceptanceOutcome(n: NodeState, y: P.Core, sx: Sent, sy: Sent, t: Id, ctx: Ctx)
    requires Good(n, y, sx, sy) && t in n.transfers && n.transfers[t].outgoing
    ensures var o := HandleTransferAccept(n, TransferAccept(t), ctx);
            var was := n.transfers[t];
            && t in o.node.transfers
            && (Spent(o.node.transfers[t].state) <==>
                Spent(was.state) || (was.state.Proposed? && ctx.now <= was.expires))
            && (was.state.Proposed? ==>
                 && o.out.Some?
                 && o.out.value.body == if ctx.now <= was.expires then TransferCommit(t) else TransferAbort(t))
            && (was.state.Proposed? && ctx.now > was.expires ==>
                 o.node.book == n.book && o.node.transfers[t].state.Expired?)
  {
    hide Good, CommitOutgoing, CommittedNode, Appended;
    GoodLinked(n, y, sx, sy);
    PayerState(n, y, sx, sy, t);
    if n.transfers[t].state.Proposed? {
      var book := CommitRuns(n, y, sx, sy, t, ctx);
      CommittedState(n, t, book);
    }
  }

  lemma CommittedState(n: NodeState, t: Id, book: Book)
    requires t in n.transfers && n.contact.Some?
    ensures CommittedNode(n, t, book).transfers == n.transfers[t := n.transfers[t].(state := Committed)]
  {
    hide ApplyTransfer;
  }

  lemma PayerState(n: NodeState, y: P.Core, sx: Sent, sy: Sent, t: Id)
    requires Good(n, y, sx, sy) && t in n.transfers && n.transfers[t].outgoing
    ensures !n.transfers[t].state.Accepted? && !n.transfers[t].state.NoTransfer?
  {
    hide Kept, Logged, Linked, P.Pairing, P.Flow, P.Agree;
    assert CoreOf(n).legs[t] == LegOf(n.transfers[t]);
  }

  /** In every reachable state an acceptance that passes the gate makes its payer commit exactly if
      the proposal still stands and the payer's clock is within its expiry; past it the transfer
      ends, the ledger is untouched, and the payee is told. */
  lemma AcceptanceCommitsExactly(me: Side, n: NodeState, peer: Side, m: NodeState, i: nat, ctx: Ctx, autoSeed: int)
    requires Met(me, n, peer, m) && i < |peer.sent| && peer.sent[i].body.TransferAccept?
    requires Validate(peer.sent[i], n.seen, n.lastSeq, ctx.now).Ok?
    ensures var t := peer.sent[i].body.transferId;
            var r := ProcessInbound(n, peer.sent[i], ctx, autoSeed);
            && t in n.transfers && n.transfers[t].outgoing && t in r.node.transfers
            && var was := n.transfers[t];
               && (Spent(r.node.transfers[t].state) <==>
                   Spent(was.state) || (was.state.Proposed? && ctx.now <= was.expires))
               && (was.state.Proposed? ==>
                    && r.out.Some?
                    && r.out.value.body == if ctx.now <= was.expires then TransferCommit(t) else TransferAbort(t))
               && (was.state.Proposed? && ctx.now > was.expires ==>
                    r.node.book == n.book && r.node.transfers[t].state.Expired?)
  {
    hide Met, Good, HandleTransferAccept;
    var t := peer.sent[i].body.transferId;
    AcceptanceFinds(me, n, peer, m, i);
    MetGood(me, n, peer, m);
    AcceptanceOutcome(n, CoreOf(m), me.sent, peer.sent, t, ctx);
  }

  lemma AcceptanceFinds(me: Side, n: NodeState, peer: Side, m: NodeState, i: nat)
    requires Met(me, n, peer, m) && i < |peer.sent| && peer.sent[i].body.TransferAccept?
    ensures var t := peer.sent[i].body.transferId; t in n.transfers && n.transfers[t].outgoing
  {
    hide Met, Linked, Kept, P.Pairing, P.Agree, P.LegStates, P.Local, P.Ordered, P.Distinct;
    var t := peer.sent[i].body.transferId;
    MetPair(me, n, peer, m);
    assert P.Backs(CoreOf(m), peer.sent[i].body);
    assert CoreOf(m).legs[t] == LegOf(m.transfers[t]);
    MetTurned(me, n, peer, m);
    IncomingWasProposed(peer, m, me, n, t);
  }
}
