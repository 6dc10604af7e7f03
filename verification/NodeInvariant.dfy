/** How a node's fields stand for the protocol state: roots and reserves are functions of the
    history, the lock fields agree, and the ledger shows exactly the committed operations. */
module NodeInvariant {
  import opened Wrappers
  import opened PoolPricing
  import opened ChannelHistory
  import opened Ledgers
  import opened TransferStates
  import opened Messages
  import opened NodeSpec
  import P = ProtocolInvariant

  function LegOf(t: Transfer): P.Leg { P.Leg(t.outgoing, t.state, t.opSeq, t.src, t.dst) }

  function LegsOf(ts: map<Id, Transfer>): map<Id, P.Leg> { map t | t in ts :: LegOf(ts[t]) }

  function PendingOf(c: Contact): Option<P.Pending> {
    if c.pendingAdjust.Some? then Some(P.Pending(c.pendingAdjust.value, c.pendingDelta)) else None
  }

  function CoreOf(n: NodeState): P.Core {
    match n.contact
    case None => P.Core(None, [], None, None, LegsOf(n.transfers), {}, n.lastSeq)
    case Some(c) =>
      P.Core(Some(P.Terms(c.id, c.iAmProposer, c.proposerSeed, c.responderSeed)), c.history, c.busyTransfer,
             PendingOf(c), LegsOf(n.transfers), c.appliedAdjusts, n.lastSeq)
  }

  // ----- roots -----

  ghost predicate Rooted(c: Contact) {
    if c.history == [] then c.opSeq == 0 && c.root == Zero && (c.roots == [] || c.roots == [Zero])
    else
      && c.opSeq == |c.history| - 1 && c.root == RootOf(c.id, c.history)
      && |c.roots| == |c.history|
      && forall i :: 0 <= i < |c.roots| ==> c.roots[i] == RootOf(c.id, c.history[..i + 1])
  }

  lemma RootsGrow(c: Contact, c': Contact, op: Op)
    requires Rooted(c) && c.history != [] && c'.id == c.id && c'.history == c.history + [op]
    requires c'.opSeq == c.opSeq + 1 && c'.root == RootOf(c.id, c'.history)
    requires c'.roots == Padded(c.roots, c'.opSeq + 1)[c'.opSeq := c'.root]
    ensures Rooted(c')
  {
    hide RootOf;
    forall i | 0 <= i < |c'.roots| ensures c'.roots[i] == RootOf(c.id, c'.history[..i + 1]) {
      if i < |c.roots| {
        assert c'.history[..i + 1] == c.history[..i + 1];
      } else {
        assert c'.history[..i + 1] == c'.history;
      }
    }
  }

  lemma SeedRooted(c: Contact)
    requires |c.roots| <= 1
    ensures Rooted(ApplySeed(c))
  {
    assert |RecordRoot(c.(opSeq := 0)).roots| == 1;
    var h := [Seeded(c.id, c.proposerSeed, c.responderSeed)];
    RootAppend(c.id, [], h[0]);
    assert [] + h == h && h[..1] == h;
  }

  lemma TransferRooted(c: Contact, id: Id, src: int, dst: int, byProposer: bool)
    requires Rooted(c) && c.history != []
    ensures Rooted(ApplyTransfer(c, id, src, dst, byProposer))
  {
    var op := Transferred(id, byProposer, src, dst);
    RootAppend(c.id, c.history, op);
    hide RootOf, ChannelNext;
    RootsGrow(c, ApplyTransfer(c, id, src, dst, byProposer), op);
  }

  lemma AdjustRooted(c: Contact, id: Id, delta: int, byProposer: bool)
    requires Rooted(c) && c.history != []
    ensures Rooted(ApplyAdjust(c, id, delta, byProposer))
  {
    var op := Adjusted(id, byProposer, delta);
    RootAppend(c.id, c.history, op);
    hide RootOf, ChannelNext;
    RootsGrow(c, ApplyAdjust(c, id, delta, byProposer), op);
  }

  // ----- reserves and locks -----

  function Held(c: Contact, pool: Pool): int { if c.iAmProposer then pool.proposerSide else pool.responderSide }

  function Mirrored(c: Contact, pool: Pool): int { if c.iAmProposer then pool.responderSide else pool.proposerSide }

  /** Both reserve counters are the fold of the history. */
  ghost predicate Reserved(c: Contact) {
    && c.myReserveOfPeer == Held(c, Reserves(c.history))
    && c.peerReserveOfMe == Mirrored(c, Reserves(c.history))
  }

  ghost predicate ContactOk(c: Contact) {
    && Rooted(c) && Reserved(c)
    && (c.active <==> c.history != [])
    && (c.busy <==> c.busyTransfer.Some?)
  }

  ghost predicate Linked(n: NodeState) {
    && (n.contact.Some? ==> ContactOk(n.contact.value))
    && (forall t :: t in n.transfers ==> OwnsContact(n, n.transfers[t].contactId))
  }

  // ----- funds -----

  /** The node's wallet for its peer is the reserve counter, and every live promise fits it. */
  ghost predicate Funds(n: NodeState) {
    && Get(n.book.balances, Wallet(n)) == (if n.contact.Some? then n.contact.value.myReserveOfPeer else 0)
    && P.Funded(CoreOf(n))
  }

  lemma TwoLegsAmounts(e: Entry, f: Entry)
    ensures Amounts([e, f]) == e.amount + f.amount
    ensures forall a :: EntrySum([e, f], a) == Delta(e, a) + Delta(f, a)
  {
    var one, two := [e], [e, f];
    assert two[..1] == one && one[..0] == [];
    assert Amounts(one) == Amounts([]) + e.amount && Amounts(two) == Amounts(one) + f.amount;
    forall a ensures EntrySum(two, a) == Delta(e, a) + Delta(f, a) {
      assert EntrySum(one, a) == EntrySum([], a) + Delta(e, a);
      assert EntrySum(two, a) == EntrySum(one, a) + Delta(f, a);
    }
  }

  /** A balanced two-leg transaction is booked unless it overdraws a node wallet. */
  lemma TwoLegsBooked(book: Book, ctx: Ctx, typ: TxType, ref: Option<Id>, a: Account, x: int, b: Account)
    ensures var tx := TwoLegs(ctx, typ, ref, a, x, b, -x);
            Appended(book, tx).Success? <==>
            !Overdraws(book.balances, Entry(a, x)) && !Overdraws(book.balances, Entry(b, -x))
  {
    var es := [Entry(a, x), Entry(b, -x)];
    TwoLegsAmounts(es[0], es[1]);
    if Overdraws(book.balances, es[0]) || Overdraws(book.balances, es[1]) {
      assert exists i :: 0 <= i < |es| && Overdraws(book.balances, es[i]);
    }
  }

  lemma FundsHold(n: NodeState)
    requires Linked(n) && Funds(n)
    ensures Get(n.book.balances, Wallet(n)) >= 0
  {
    hide P.Priced, Rooted;
    if n.contact.Some? && n.contact.value.history == [] {
      assert Reserves(n.contact.value.history) == Pool(0, 0);
    }
  }
}
