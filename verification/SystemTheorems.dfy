/** Theorems about whole runs: nothing is lost, no leg is ever refused, no trade takes value
    from the pool, and checkpoints tell forks from lag. */
module SystemTheorems {
  import opened Wrappers
  import opened PoolPricing
  import opened ChannelHistory
  import opened Ledgers
  import opened Supply
  import opened TransferStates
  import opened Messages
  import opened NodeSpec
  import opened NodeInvariant
  import opened NodeRecords
  import opened NodeSteps
  import opened NodeGrowth
  import opened NodeInbound
  import opened Systems
  import opened SystemInvariant
  import opened SystemRuns
  import opened SystemSafety
  import opened SystemPromises
  import P = ProtocolInvariant
  import F = ProtocolFunds

  // ----- nothing is taken back -----

  lemma StoredHistory(s: Side)
    requires Behind(s.disk, s.mem)
    ensures History(s.mem) == History(s.disk) && s.mem.book == s.disk.book
    ensures forall t :: t in s.mem.transfers && Spent(s.mem.transfers[t].state) ==>
              t in s.disk.transfers && s.disk.transfers[t] == s.mem.transfers[t]
  {
    assert forall t :: t in s.mem.transfers ==> t in s.disk.transfers.Keys;
  }

  /** What one side decided stays decided, in memory as well, across any number of restarts. */
  ghost predicate Later(n: NodeState, n': NodeState) {
    && History(n) <= History(n') && n.book.log <= n'.book.log
    && forall t :: t in n.transfers && Spent(n.transfers[t].state) ==>
         t in n'.transfers && Onward(n.transfers[t].state, n'.transfers[t].state)
  }

  lemma SideLater(s: Side, s': Side)
    requires SideGrows(s, s') && Behind(s.disk, s.mem) && Behind(s'.disk, s'.mem)
    ensures Later(s.mem, s'.mem)
  {
    StoredHistory(s);
    StoredHistory(s');
    BehindKeepsCharged(s');
  }

  lemma BehindKeepsCharged(s: Side)
    requires Behind(s.disk, s.mem)
    ensures forall t :: t in s.disk.transfers && Spent(s.disk.transfers[t].state) ==>
              t in s.mem.transfers && s.mem.transfers[t] == s.disk.transfers[t]
  {
    assert forall t :: t in s.disk.transfers ==> t in s.mem.transfers.Keys;
  }

  /** Later in a run histories and ledgers are only longer, and commits and settlements stand. */
  lemma NothingTakenBack(r: seq<System>, j: nat, k: nat)
    requires IsRun(r) && j <= k < |r|
    ensures Later(r[j].a.mem, r[k].a.mem) && Later(r[j].b.mem, r[k].b.mem)
  {
    hide IsRun, Behind, SideGrows, Later, NodeOk, PostedOk, AllInStep;
    RunGrows(r, j, k);
    RunOk(r, j);
    RunOk(r, k);
    SideLater(r[j].a, r[k].a);
    SideLater(r[j].b, r[k].b);
  }

  lemma MetStored(me: Side, peer: Side)
    requires Met(me, me.mem, peer, peer.mem)
    ensures Met(me, me.disk, peer, peer.disk)
  {
    hide Reachable;
  }

  // ----- the ledger never refuses -----

  ghost predicate NoFailures(sx: Sent) { forall e :: e in sx ==> e.body != ErrorReply(Internal) }

  /** What an operation of the node's own may send. */
  lemma OwnMessages(n: NodeState, peer: Side, act: Action)
    requires !act.Receive?
    ensures var r := Act(n, peer, act); r.out.Some? ==> !r.out.value.body.ErrorReply?
  {
    hide ReleaseIfBusyExpired, Sweep, Appended, PriceOutgoing, Reconcile, SetState, ReleaseFor;
  }

  lemma ReceiveNeverFails(me: Side, peer: Side, act: Action)
    requires Met(me, me.mem, peer, peer.mem) && NoFailures(me.sent) && act.Receive?
    ensures var r := Act(me.mem, peer, act); r.out.Some? ==> r.out.value.body != ErrorReply(Internal)
  {
    hide Met, Good, Route, Numbered;
    var n, m := me.mem, peer.mem;
    MetGood(me, n, peer, m);
    StoredAnswers(n, CoreOf(m), me.sent, peer.sent);
    if act.i < |peer.sent| {
      var env := peer.sent[act.i];
      if Validate(env, n.seen, n.lastSeq, act.ctx.now).Ok? {
        HandledAt(me, n, peer, m, act.i, act.ctx, act.autoSeed);
        RouteNeverFails(At(n, act.i + 1), CoreOf(m), me.sent, peer.sent, act.i, act.ctx, act.autoSeed);
      }
    }
  }

  lemma StoredAnswers(n: NodeState, y: P.Core, sx: Sent, sy: Sent)
    requires Good(n, y, sx, sy)
    ensures forall id :: id in n.replies ==> n.replies[id] in sx
    ensures forall id :: id in n.transfers && n.transfers[id].receipt.Some? ==> n.transfers[id].receipt.value in sx
  {
    hide P.Inv, Linked, Kept;
  }

  lemma StepNeverFails(me: Side, peer: Side, act: Action)
    requires Met(me, me.mem, peer, peer.mem) && NoFailures(me.sent)
    ensures NoFailures(Step(me, peer, act).sent)
  {
    hide Met, Act;
    if act.Receive? {
      ReceiveNeverFails(me, peer, act);
    } else {
      OwnMessages(me.mem, peer, act);
    }
  }

  /** Accepting is a promise: in no run does a ledger refuse a leg of a transfer, a seed or an
      adjustment, so no node ever sends an internal error. */
  lemma {:induction false} NoLegIsRefused(r: seq<System>, k: nat)
    requires IsRun(r) && k < |r|
    ensures NoFailures(r[k].a.sent) && NoFailures(r[k].b.sent)
  {
    hide IsRun, NoFailures, Met, Step, Enabled;
    if k == 0 {
      FirstSent(r);
    } else {
      NoLegIsRefused(r, k - 1);
      var s, s' := r[k - 1], r[k];
      RunNext(r, k);
      var act :| StepsA(s, s', act) || StepsB(s, s', act);
      MetInRun(r, k - 1);
      if StepsA(s, s', act) {
        StepNeverFails(s.a, s.b, act);
      } else {
        StepNeverFails(s.b, s.a, act);
      }
    }
  }

  lemma FirstSent(r: seq<System>)
    requires IsRun(r)
    ensures NoFailures(r[0].a.sent) && NoFailures(r[0].b.sent)
  {
  }

  lemma RunNext(r: seq<System>, k: nat)
    requires IsRun(r) && 0 < k < |r|
    ensures Next(r[k - 1], r[k])
  {
    hide Next, Init;
  }

  lemma MetInRun(r: seq<System>, k: nat)
    requires IsRun(r) && k < |r|
    ensures Met(r[k].a, r[k].a.mem, r[k].b, r[k].b.mem) && Met(r[k].b, r[k].b.mem, r[k].a, r[k].a.mem)
  {
    hide IsRun;
    assert r[k] == System(r[k].a, r[k].b);
  }

  // ----- trades never take value out of the pool -----

  predicate OnlyTransfers(ops: seq<Op>) { forall i :: 0 <= i < |ops| ==> ops[i].Transferred? }

  lemma FairTrade(pool: Pool, byProposer: bool, src: int, dst: int)
    requires PriceFor(pool, byProposer, src) == Success(dst)
    ensures pool.Positive() && Moved(pool, byProposer, src, dst).Positive()
    ensures Moved(pool, byProposer, src, dst).Product() >= pool.Product()
  {
    AttemptKeeps(pool, Trade(byProposer, src)) by {
      assert src > 0 && pool.Positive();
    }
  }

  /** Between two adjustments the product of the reserves never falls, whoever trades. */
  lemma {:induction false} ChargedProduct(h: seq<Op>, i: nat, j: nat)
    requires P.Charged(h) && i < j <= |h| && OnlyTransfers(h[i..j])
    ensures Reserves(h[..i]).Positive() && Reserves(h[..j]).Positive()
    ensures Reserves(h[..j]).Product() >= Reserves(h[..i]).Product()
    decreases j
  {
    hide Reserves, PriceFor, PoolPrice;
    var op := h[j - 1];
    assert op == h[i..j][j - 1 - i];
    assert P.Fair(h[..j - 1], op);
    assert h[..j] == h[..j - 1] + [op];
    ReservesAppend(h[..j - 1], op);
    FairTrade(Reserves(h[..j - 1]), op.byProposer, op.src, op.dst);
    if i < j - 1 {
      assert h[i..j - 1] == h[i..j][..j - 1 - i];
      ChargedProduct(h, i, j - 1);
    }
  }

  /** In every reachable state: over any stretch of committed transfers both reserves stay
      positive, their product does not fall, and no side gains on both currencies. */
  lemma TradesNeverDrain(me: Side, n: NodeState, peer: Side, m: NodeState, i: nat, j: nat)
    requires Met(me, n, peer, m) && i < j <= |History(n)| && OnlyTransfers(History(n)[i..j])
    ensures var p, q := Reserves(History(n)[..i]), Reserves(History(n)[..j]);
            && p.Positive() && q.Positive() && q.Product() >= p.Product()
            && (q.proposerSide <= p.proposerSide ==> q.responderSide >= p.responderSide)
  {
    hide Met, Reserves, OnlyTransfers, P.Charged;
    HistoryCharged(me, n, peer, m);
    ChargedProduct(History(n), i, j);
    var p, q := Reserves(History(n)[..i]), Reserves(History(n)[..j]);
    ProductBound(p.proposerSide, p.responderSide, q.proposerSide, q.responderSide);
  }

  lemma HistoryCharged(me: Side, n: NodeState, peer: Side, m: NodeState)
    requires Met(me, n, peer, m)
    ensures P.Charged(History(n))
  {
    hide Met, Linked, Sound, CountOf, P.Self, P.Local, P.LegStates, P.Pairing, P.Agree, P.Charged, P.Priced, P.Covered;
    MetPair(me, n, peer, m);
    assert P.Charged(CoreOf(n).hist);
  }

  // ----- checkpoints -----

  /** A contact still pending that got its zero root recorded by a restart. */
  predicate ZeroRooted(n: NodeState) { n.contact.Some? && !n.contact.value.active && n.contact.value.roots != [] }

  /** Comparing with an honest peer's checkpoint, however stale, freezes a contact in exactly two
      cases: this end is active and the checkpoint was taken while the peer's was still pending,
      or this end is pending, was restarted, and the checkpoint shows operation 0. */
  lemma FreezesExactly(me: Side, n: NodeState, peer: Side, j: nat)
    requires Met(me, n, peer, peer.mem) && j < |peer.posted|
    ensures var cp := peer.posted[j].checkpoint;
            Freezes(n, cp) <==>
            n.contact.Some? && n.contact.value.id == cp.contactId
            && if n.contact.value.active then !peer.posted[j].active
               else ZeroRooted(n) && peer.posted[j].active && cp.opSeq == 0
  {
    hide Met, Kept, RootOf, P.Self, P.Local, P.LegStates, P.Pairing, P.Agree, CoreOf, Reserved;
    var p := peer.posted[j];
    PostedByPeer(me, n, peer, j);
    MetPair(me, n, peer, peer.mem);
    NeverFork(me, n, peer, peer.mem);
    var g := History(peer.mem);
    if p.active {
      FirstRootIsSet(p.checkpoint.contactId, g);
    }
    if n.contact.Some? && n.contact.value.active {
      var c, h := n.contact.value, History(n);
      assert c.roots[0] == RootOf(c.id, h[..1]);
      FirstRootIsSet(c.id, h);
      if p.active && p.checkpoint.opSeq < |h| {
        var k := p.checkpoint.opSeq + 1;
        assert h[..k] == g[..k];
        assert c.roots[k - 1] == RootOf(c.id, h[..k]);
      }
    }
  }

  lemma FirstRootIsSet(id: Id, h: seq<Op>)
    requires h != []
    ensures RootOf(id, h[..1]) != Zero
  {
  }

  lemma PostedByPeer(me: Side, n: NodeState, peer: Side, j: nat)
    requires Met(me, n, peer, peer.mem) && j < |peer.posted|
    ensures PostOk(peer.mem, peer.posted[j])
  {
    hide NodeOk, AllInStep, Reachable, Behind, PostOk;
    ReachableOk(me, peer);
  }

  /** Against any history g of the peer, honest or not: comparing at an index both have reached
      freezes the contact exactly when some operation up to there differs. */
  lemma ForkIsDetected(me: Side, n: NodeState, peer: Side, m: NodeState, g: seq<Op>, k: nat, lastSeq: int)
    requires Met(me, n, peer, m) && n.contact.Some? && k < |History(n)| && k < |g|
    ensures var id := n.contact.value.id;
            Freezes(n, Checkpoint(id, k, RootOf(id, g[..k + 1]), lastSeq)) <==>
              !SameTuples(g[..k + 1], History(n)[..k + 1])
  {
    hide Met, Kept, RootOf, P.Self, P.Local, P.LegStates, P.Pairing, P.Agree, CoreOf, Reserved, SameTuples;
    MetPair(me, n, peer, m);
    var c := n.contact.value;
    assert c.roots[k] == RootOf(c.id, History(n)[..k + 1]);
    RootsAgree(c.id, c.id, g[..k + 1], History(n)[..k + 1]);
  }
}
