/** What every move does to the promises a node has made: prices stay tied to the reserves they
    were computed from, and no reserve can go below zero. */
module ProtocolFunds {
  import opened Wrappers
  import opened PoolPricing
  import opened ChannelHistory
  import opened TransferStates
  import opened Messages
  import opened ProtocolInvariant
  import M = ProtocolMoves
  import C = ProtocolCommits
  import A = ProtocolAdjusts

  /** Nothing priced, pending or committed differs; only states, locks and positions may. */
  ghost predicate SamePrices(x: Core, x': Core) {
    && x'.terms == x.terms && x'.hist == x.hist && x'.pending == x.pending
    && x'.legs.Keys == x.legs.Keys
    && forall t :: t in x.legs ==> x'.legs[t].(state := x.legs[t].state) == x.legs[t]
  }

  lemma SamePricesFunded(x: Core, x': Core)
    requires Funded(x) && SamePrices(x, x')
    ensures Funded(x')
  {
    hide Reserves, PriceFor;
  }

  /** A leg priced at the current reserves. */
  ghost predicate PricedNow(x: Core, l: Leg) {
    x.terms.Some? && PriceFor(Reserves(x.hist), l.outgoing == x.terms.value.proposer, l.src) == Success(l.dst)
  }

  lemma AddFunded(x: Core, t: Id, l: Leg)
    requires Funded(x) && M.MayAdd(x, t, l) && PricedNow(x, l)
    ensures Funded(M.AddLeg(x, t, l))
  {
    hide Reserves, PriceFor;
    assert x.hist[..|x.hist|] == x.hist;
  }

  /** The legs of a longer history keep the prices they had. */
  lemma LongerPriced(x: Core, x': Core, op: Op)
    requires Local(x) && Priced(x) && x'.hist == x.hist + [op] && x'.terms == x.terms
    requires x'.legs.Keys == x.legs.Keys
    requires forall t :: t in x.legs ==> x'.legs[t].(state := x.legs[t].state) == x.legs[t]
    ensures Priced(x')
  {
    hide Reserves, PriceFor, Opened, Locked;
    assert Pinned(x);
    forall t | t in x.legs ensures x'.hist[..x.legs[t].opSeq + 1] == x.hist[..x.legs[t].opSeq + 1] {
    }
  }

  lemma LiveIsPriced(x: Core, t: Id)
    requires Local(x) && Priced(x) && t in x.legs && (x.legs[t].state.Proposed? || x.legs[t].state.Accepted?)
    ensures PricedNow(x, x.legs[t])
  {
    assert Pinned(x) && Opened(x);
    hide Reserves, PriceFor, Locked;
    assert x.hist[..x.legs[t].opSeq + 1] == x.hist;
  }

  lemma MovedCovered(pool: Pool, byProposer: bool, src: int, dst: int)
    requires pool.proposerSide >= 0 && pool.responderSide >= 0 && PriceFor(pool, byProposer, src) == Success(dst)
    ensures Moved(pool, byProposer, src, dst).proposerSide >= 0 && Moved(pool, byProposer, src, dst).responderSide >= 0
  {
  }

  lemma ChargedAppend(h: seq<Op>, op: Op)
    requires Charged(h) && Fair(h, op)
    ensures Charged(h + [op])
  {
    hide Fair;
    var h' := h + [op];
    forall i | 0 <= i < |h'| ensures Fair(h'[..i], h'[i]) {
      assert h'[..i] == h[..i];
      assert i == |h| ==> h[..i] == h;
    }
  }

  /** Writing a live transfer into the history leaves both reserves covered. */
  lemma TransferFunded(x: Core, x': Core, t: Id)
    requires Local(x) && Funded(x) && t in x.legs && (x.legs[t].state.Proposed? || x.legs[t].state.Accepted?)
    requires x.terms.Some? && x'.hist == x.hist + [LegOp(x, t)] && x'.terms == x.terms && x'.pending.None?
    requires x'.legs.Keys == x.legs.Keys && x.hist != []
    requires forall u :: u in x.legs ==> x'.legs[u].(state := x.legs[u].state) == x.legs[u]
    ensures Funded(x')
  {
    hide Reserves, PriceFor, Local, Priced;
    LongerPriced(x, x', LegOp(x, t));
    LiveIsPriced(x, t);
    ReservesAppend(x.hist, LegOp(x, t));
    var l := x.legs[t];
    MovedCovered(Reserves(x.hist), l.outgoing == x.terms.value.proposer, l.src, l.dst);
    ChargedAppend(x.hist, LegOp(x, t));
  }

  lemma HoldFunded(x: Core, p: Pending)
    requires Funded(x) && x.terms.Some? && p.delta != 0 && Mine(x, Reserves(x.hist)) + p.delta >= 0
    ensures Funded(A.Hold(x, p))
  {
    hide Reserves, PriceFor;
  }

  lemma ApplyFunded(x: Core, p: Pending)
    requires Local(x) && Funded(x) && x.terms.Some? && x.hist != [] && x.pending.None?
    requires p.delta != 0 && Theirs(x, Reserves(x.hist)) + p.delta >= 0
    ensures Funded(A.ApplyAdjust(x, p))
  {
    hide Reserves, PriceFor, Local, Priced;
    var op := Adjusted(p.id, !x.terms.value.proposer, p.delta);
    LongerPriced(x, A.ApplyAdjust(x, p), op);
    ReservesAppend(x.hist, op);
    ChargedAppend(x.hist, op);
  }

  lemma BookFunded(x: Core, p: Pending)
    requires Local(x) && Funded(x) && x.terms.Some? && x.hist != [] && x.pending == Some(p)
    ensures Funded(A.BookAdjust(x, p))
  {
    hide Reserves, PriceFor, Local, Priced;
    LongerPriced(x, A.BookAdjust(x, p), AdjustOp(x, p));
    ReservesAppend(x.hist, AdjustOp(x, p));
    ChargedAppend(x.hist, AdjustOp(x, p));
  }

  /** A freshly seeded contact holds exactly its two seeds. */
  lemma SeededFunded(x: Core, op: Op)
    requires x.legs == map[] && x.pending.None? && x.hist == [op] && op.Seeded?
    requires op.proposerSeed > 0 && op.responderSeed > 0
    ensures Funded(x)
  {
    ReservesAppend([], op);
    ChargedAppend([], op);
    assert [] + [op] == [op];
    hide Reserves, PriceFor;
  }
}
