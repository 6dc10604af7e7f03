/** What holds in every reachable state of two honest nodes, under any loss, repetition,
    overtaking, clock skew, expiry and restart. */
module SystemSafety {
  import opened Wrappers
  import opened PoolPricing
  import opened ChannelHistory
  import opened Ledgers
  import opened Supply
  import opened LedgerTotals
  import opened TransferStates
  import opened Messages
  import opened NodeSpec
  import opened NodeInvariant
  import opened NodeRecords
  import opened NodeSteps
  import opened NodeGrowth
  import opened Systems
  import opened SystemInvariant
  import opened SystemRuns
  import P = ProtocolInvariant

  /** me and peer are the two sides of one state of some run. */
  ghost predicate Reachable(me: Side, peer: Side) {
    exists r: seq<System>, k: nat :: IsRun(r) && k < |r| && (r[k] == System(me, peer) || r[k] == System(peer, me))
  }

  lemma ReachableOk(me: Side, peer: Side)
    requires Reachable(me, peer)
    ensures SideOk(me) && SideOk(peer) && AllInStep(me, peer)
  {
    hide SideOk, AllInStep, IsRun;
    var r: seq<System>, k: nat :| IsRun(r) && k < |r| && (r[k] == System(me, peer) || r[k] == System(peer, me));
    RunOk(r, k);
    Turned(r[k].a, r[k].b);
  }

  /** The states a side may be in: as in memory, or as last stored. */
  predicate Holds(s: Side, n: NodeState) { n == s.mem || n == s.disk }

  /** A state of me, beside any state of peer. */
  ghost predicate Met(me: Side, n: NodeState, peer: Side, m: NodeState) {
    Reachable(me, peer) && Holds(me, n) && Holds(peer, m)
  }

  lemma MetGood(me: Side, n: NodeState, peer: Side, m: NodeState)
    requires Met(me, n, peer, m)
    ensures Good(n, CoreOf(m), me.sent, peer.sent) && Good(m, CoreOf(n), peer.sent, me.sent)
  {
    hide NodeOk, InStep, Behind, PostedOk, Reachable, Good;
    ReachableOk(me, peer);
    Turned(me, peer);
    GoodIs(n, m, me.sent, peer.sent);
    GoodIs(m, n, peer.sent, me.sent);
  }

  function History(n: NodeState): seq<Op> { if n.contact.Some? then n.contact.value.history else [] }

  // ----- the histories never fork -----

  /** One history is a prefix of the other, and at most one operation shorter. */
  predicate Forkless(h: seq<Op>, g: seq<Op>) { (h <= g && |g| <= |h| + 1) || (g <= h && |h| <= |g| + 1) }

  lemma NeverFork(me: Side, n: NodeState, peer: Side, m: NodeState)
    requires Met(me, n, peer, m)
    ensures Forkless(History(n), History(m))
  {
    hide Met, Linked, Kept, P.Self, P.LegStates, P.Local, P.Matched, P.Outcomes, P.Opening;
    MetPair(me, n, peer, m);
    assert P.Ahead(CoreOf(n), CoreOf(m)) && P.Ahead(CoreOf(m), CoreOf(n));
  }

  // ----- reserves and roots mirror -----

  /** At the same operation number the two contacts are mirror images. */
  lemma ReservesMirror(me: Side, n: NodeState, peer: Side, m: NodeState)
    requires Met(me, n, peer, m) && n.contact.Some? && m.contact.Some?
    requires n.contact.value.active && m.contact.value.active && n.contact.value.opSeq == m.contact.value.opSeq
    ensures var c, d := n.contact.value, m.contact.value;
            && c.id == d.id && c.iAmProposer != d.iAmProposer
            && c.myReserveOfPeer == d.peerReserveOfMe && c.peerReserveOfMe == d.myReserveOfPeer
            && c.root == d.root && c.roots == d.roots
  {
    hide Met, Kept, RootOf, Reserves, P.Self, P.Pairing, P.LegStates, P.Local, P.Agree, CoreOf;
    NeverFork(me, n, peer, m);
    MetPair(me, n, peer, m);
    Sides(me, n, peer, m);
    var c, d := n.contact.value, m.contact.value;
    assert ContactOk(c) && ContactOk(d);
    assert c.history == d.history;
    assert forall i :: 0 <= i < |c.roots| ==> c.roots[i] == d.roots[i];
  }

  /** Two active contacts are the two ends of one contact. */
  lemma Sides(me: Side, n: NodeState, peer: Side, m: NodeState)
    requires Met(me, n, peer, m) && n.contact.Some? && n.contact.value.active && m.contact.Some?
    ensures n.contact.value.id == m.contact.value.id && n.contact.value.iAmProposer != m.contact.value.iAmProposer
  {
    hide Met, Kept, P.LegStates, P.Locked, P.Pinned, P.Backed, P.Ordered, P.Distinct, P.Matched, P.Outcomes, P.Ahead,
      P.Agree, Rooted, Reserved;
    MetPair(me, n, peer, m);
    assert P.Opening(CoreOf(n), CoreOf(m)) && P.Opening(CoreOf(m), CoreOf(n));
    assert ContactOk(n.contact.value);
  }

  // ----- joint outcomes -----

  /** The pairs of outcomes a transfer may have on its payer and its payee. */
  predicate Compatible(payer: State, payee: Option<State>) {
    match payer
    case Proposed => payee in {None, Some(Accepted), Some(Expired)}
    case Rejected => payee == None
    case Committed => payee in {Some(Accepted), Some(Settled), Some(Expired)}
    case Settled => payee == Some(Settled)
    case Aborted => payee in {None, Some(Accepted), Some(Aborted), Some(Expired)}
    case Expired => payee in {None, Some(Accepted), Some(Aborted), Some(Expired)}
    case Accepted => false
    case NoTransfer => false
  }

  /** The same on the protocol state. */
  lemma CoresAgree(x: P.Core, y: P.Core, t: Id)
    requires P.Pairing(x, y) && P.LegStates(x) && P.LegStates(y) && t in x.legs && x.legs[t].outgoing
    ensures Compatible(x.legs[t].state, if t in y.legs then Some(y.legs[t].state) else None)
    ensures t in y.legs ==>
              && !y.legs[t].outgoing && y.legs[t].opSeq == x.legs[t].opSeq
              && y.legs[t].src == x.legs[t].src && y.legs[t].dst == x.legs[t].dst
  {
    hide P.Opening, P.Ahead;
    assert P.Outcome(x, y, t);
  }

  /** Every transfer a node pays has a compatible outcome at its peer, on the same terms. */
  lemma OutcomesAgree(me: Side, n: NodeState, peer: Side, m: NodeState, t: Id)
    requires Met(me, n, peer, m) && t in n.transfers && n.transfers[t].outgoing
    ensures Compatible(n.transfers[t].state, StateOf(m, t))
    ensures t in m.transfers ==>
              && !m.transfers[t].outgoing && m.transfers[t].opSeq == n.transfers[t].opSeq
              && m.transfers[t].src == n.transfers[t].src && m.transfers[t].dst == n.transfers[t].dst
  {
    hide Met, P.Self, P.Pairing, P.LegStates;
    MetPair(me, n, peer, m);
    assert t in m.transfers ==> CoreOf(m).legs[t] == LegOf(m.transfers[t]);
    assert CoreOf(n).legs[t] == LegOf(n.transfers[t]);
    CoresAgree(CoreOf(n), CoreOf(m), t);
  }

  lemma MetPair(me: Side, n: NodeState, peer: Side, m: NodeState)
    requires Met(me, n, peer, m)
    ensures Linked(n) && Linked(m) && Kept(n) && Kept(m)
    ensures P.Self(CoreOf(n), me.sent) && P.Self(CoreOf(m), peer.sent)
    ensures P.Local(CoreOf(n)) && P.LegStates(CoreOf(n)) && P.LegStates(CoreOf(m))
    ensures P.Pairing(CoreOf(n), CoreOf(m)) && P.Pairing(CoreOf(m), CoreOf(n)) && P.Agree(CoreOf(n), CoreOf(m))
  {
    hide Met, Linked, Kept, Logged, P.Flow, P.Opened, P.LegStates, P.Locked, P.Pinned, P.Backed, P.Ordered,
      P.Distinct, P.Pairing, P.Agree, CoreOf;
    MetGood(me, n, peer, m);
  }

  /** Every transfer a node is paid was proposed by its peer. */
  lemma IncomingWasProposed(me: Side, n: NodeState, peer: Side, m: NodeState, t: Id)
    requires Met(me, n, peer, m) && t in n.transfers && !n.transfers[t].outgoing
    ensures t in m.transfers && m.transfers[t].outgoing
  {
    hide Met, Linked, Kept, P.Self, P.LegStates, P.Agree, P.Opening, P.Ahead, P.Outcomes;
    MetPair(me, n, peer, m);
    assert P.Matched(CoreOf(m), CoreOf(n));
    assert CoreOf(n).legs[t] == LegOf(n.transfers[t]);
  }

  // ----- each payment is recorded exactly once -----

  function PaidRecords(n: NodeState, t: Id): nat { CountOf(n.book.log, TransferOut, t) }

  function PayoutRecords(n: NodeState, t: Id): nat { CountOf(n.book.log, TransferIn, t) }

  /** At most one transfer.out and one transfer.in per transfer, never an in without its out on
      the other ledger, and exactly one of each once the payer knows it settled. */
  lemma PaidOnce(me: Side, n: NodeState, peer: Side, m: NodeState, t: Id)
    requires Met(me, n, peer, m)
    ensures PaidRecords(n, t) <= 1 && PayoutRecords(n, t) <= 1 && PaidRecords(n, t) + PayoutRecords(n, t) <= 1
    ensures PayoutRecords(m, t) == 1 ==> PaidRecords(n, t) == 1
    ensures t in n.transfers && n.transfers[t].outgoing && n.transfers[t].state.Settled? ==>
              PaidRecords(n, t) == 1 && PayoutRecords(m, t) == 1
    ensures PaidRecords(n, t) == 1 <==>
              t in n.transfers && n.transfers[t].outgoing
                && (n.transfers[t].state.Committed? || n.transfers[t].state.Settled?)
  {
    hide Met, Linked, P.Self, P.Pairing, P.Agree, P.LegStates, P.Local, CoreOf, Sound, Funds, CountOf;
    MetPair(me, n, peer, m);
    assert Recorded(n) && Recorded(m);
    if t in n.transfers && n.transfers[t].outgoing {
      OutcomesAgree(me, n, peer, m, t);
    }
    if t in m.transfers && !m.transfers[t].outgoing {
      IncomingWasProposed(peer, m, me, n, t) by { MetTurned(me, n, peer, m); }
    }
  }

  lemma MetTurned(me: Side, n: NodeState, peer: Side, m: NodeState)
    requires Met(me, n, peer, m)
    ensures Met(peer, m, me, n)
  {
    hide IsRun;
  }

  /** The wallet a node keeps for its peer is its reserve counter, and its ledger verifies. */
  lemma WalletIsReserve(me: Side, n: NodeState, peer: Side, m: NodeState)
    requires Met(me, n, peer, m)
    ensures Get(n.book.balances, Wallet(n)) == Owed(n) >= 0 && Verified(n.book.log)
    ensures n.contact.Some? ==> Owed(n) == Held(n.contact.value, Reserves(History(n)))
    ensures n.contact.Some? ==> n.contact.value.peerReserveOfMe == Mirrored(n.contact.value, Reserves(History(n)))
  {
    hide Met, P.Self, P.Pairing, P.Agree, P.LegStates, P.Local, CoreOf, P.Funded, Verified, Rooted, Reserves;
    MetPair(me, n, peer, m);
    FundsHold(n);
  }

  /** In every reachable state the money supply is what members, funds and wallets hold, and also
      what was granted, paid as dividend, seeded and adjusted less what was burned and retired. */
  lemma SupplyIsAccounted(me: Side, n: NodeState, peer: Side, m: NodeState)
    requires Met(me, n, peer, m)
    ensures Accounted(n.book) && Total(n.book.balances) == 0
  {
    hide Met, P.Self, P.Pairing, P.Agree, P.LegStates, P.Local, CoreOf, P.Funded, CountOf, Accounted, Linked, Funds;
    MetPair(me, n, peer, m);
    SoundIsAccounted(n.book);
  }
}
