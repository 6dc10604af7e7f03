/** What a node's ledger says about its transfers: exactly the committed legs, once each. */
module NodeRecords {
  import opened Wrappers
  import opened PoolPricing
  import opened ChannelHistory
  import opened Ledgers
  import opened Supply
  import opened TransferStates
  import opened Messages
  import opened NodeSpec
  import opened NodeInvariant
  import P = ProtocolInvariant
  import F = ProtocolFunds

  // ----- counting records -----

  predicate IsRecord(r: Record, typ: TxType, id: Id) { r.tx.typ == typ && r.tx.ref == Some(id) }

  /** How many records of one type a log holds for one reference. */
  function CountOf(log: seq<Record>, typ: TxType, id: Id): nat {
    if log == [] then 0
    else CountOf(log[..|log| - 1], typ, id) + if IsRecord(log[|log| - 1], typ, id) then 1 else 0
  }

  lemma CountAppend(log: seq<Record>, rec: Record, typ: TxType, id: Id)
    ensures CountOf(log + [rec], typ, id) == CountOf(log, typ, id) + if IsRecord(rec, typ, id) then 1 else 0
  {
    assert (log + [rec])[..|log|] == log;
  }

  function PaidCount(ts: map<Id, Transfer>, id: Id): nat {
    if id in ts && ts[id].outgoing && (ts[id].state.Committed? || ts[id].state.Settled?) then 1 else 0
  }

  function ReceivedCount(ts: map<Id, Transfer>, id: Id): nat {
    if id in ts && !ts[id].outgoing && ts[id].state.Settled? then 1 else 0
  }

  /** One transfer.out per transfer this node committed, one transfer.in per transfer it
      settled as payee, and no others. */
  ghost predicate Recorded(n: NodeState) {
    forall id :: CountOf(n.book.log, TransferOut, id) == PaidCount(n.transfers, id)
                 && CountOf(n.book.log, TransferIn, id) == ReceivedCount(n.transfers, id)
  }

  /** The ledger side of a node's invariant. */
  ghost predicate Kept(n: NodeState) {
    Sound(n.book) && Funds(n) && Recorded(n)
  }

  // ----- what a two-leg transaction adds -----

  function Adds(tx: Tx, typ: TxType, id: Id): nat { if tx.typ == typ && tx.ref == Some(id) then 1 else 0 }

  ghost predicate Extends(book: Book, book': Book, tx: Tx) {
    && (Sound(book) && Shaped(tx) ==> Sound(book'))
    && (forall w :: Get(book'.balances, w) == Get(book.balances, w) + EntrySum(tx.entries, w))
    && (forall typ, id :: CountOf(book'.log, typ, id) == CountOf(book.log, typ, id) + Adds(tx, typ, id))
  }

  lemma BookedExtends(book: Book, tx: Tx, book': Book)
    requires Appended(book, tx) == Success(book') && NamesWalletsOnce(tx)
    ensures Extends(book, book', tx)
  {
    hide Sound, NextRecord;
    if Sound(book) && Shaped(tx) {
      AppendKeepsSound(book, tx);
    }
    forall w ensures Get(book'.balances, w) == Get(book.balances, w) + EntrySum(tx.entries, w) {
      PostGet(book.balances, tx.entries, w);
    }
    forall typ, id ensures CountOf(book'.log, typ, id) == CountOf(book.log, typ, id) + Adds(tx, typ, id) {
      CountAppend(book.log, NextRecord(book.log, tx), typ, id) by { NextRecordTx(book.log, tx); }
      NextRecordTx(book.log, tx);
    }
  }

  lemma NextRecordTx(log: seq<Record>, tx: Tx)
    ensures NextRecord(log, tx).tx == tx
  {
  }

  /** What a booked two-leg transaction does to one wallet. */
  lemma TwoLegsExtends(book: Book, ctx: Ctx, typ: TxType, ref: Option<Id>, a: Account, x: int, b: Account, book': Book)
    requires Appended(book, TwoLegs(ctx, typ, ref, a, x, b, -x)) == Success(book') && a != b
    ensures Extends(book, book', TwoLegs(ctx, typ, ref, a, x, b, -x))
    ensures Get(book'.balances, a) == Get(book.balances, a) + x
    ensures Get(book'.balances, b) == Get(book.balances, b) - x
  {
    var tx := TwoLegs(ctx, typ, ref, a, x, b, -x);
    BookedExtends(book, tx, book');
    TwoLegsAmounts(tx.entries[0], tx.entries[1]);
    hide Appended, Sound, EntrySum, CountOf;
    assert EntrySum(tx.entries, a) == x && EntrySum(tx.entries, b) == -x;
  }

  /** What a two-leg transaction puts into circulation, and when it has no system leg. */
  lemma TwoLegsIssue(ctx: Ctx, typ: TxType, ref: Option<Id>, a: Account, x: int, b: Account)
    ensures var tx := TwoLegs(ctx, typ, ref, a, x, b, -x);
            && Issued(tx) == (if IsSystem(a) then -x else 0) + (if IsSystem(b) then x else 0)
            && (NoSystemLegs(tx) <==> !IsSystem(a) && !IsSystem(b))
  {
    var tx := TwoLegs(ctx, typ, ref, a, x, b, -x);
    TwoEntriesIssue(tx);
    hide Issued;
    assert tx.entries[0].account == a && tx.entries[1].account == b;
  }

  // ----- what each move of the protocol keeps -----

  /** What the node's wallet for its peer must hold. */
  function Owed(n: NodeState): int { if n.contact.Some? then n.contact.value.myReserveOfPeer else 0 }

  /** The same money under the same prices: only states short of committed, locks and notes differ. */
  ghost predicate SameMoney(n: NodeState, n': NodeState) {
    && n'.book == n.book && n'.peerHost == n.peerHost
    && Owed(n') == Owed(n)
    && (forall id :: PaidCount(n'.transfers, id) == PaidCount(n.transfers, id)
                     && ReceivedCount(n'.transfers, id) == ReceivedCount(n.transfers, id))
  }

  lemma SameMoneyKept(n: NodeState, n': NodeState)
    requires Kept(n) && SameMoney(n, n') && P.Funded(CoreOf(n'))
    ensures Kept(n')
  {
    hide Sound, P.Funded, CountOf, CoreOf;
  }

  /** Moving one transfer between uncommitted states. */
  lemma StateKept(n: NodeState, n': NodeState, id: Id, s: State)
    requires Kept(n) && id in n.transfers && n'.transfers == n.transfers[id := n.transfers[id].(state := s)]
    requires n'.book == n.book && n'.peerHost == n.peerHost && (n'.contact.Some? <==> n.contact.Some?)
    requires n.contact.Some? ==> n'.contact.value.myReserveOfPeer == n.contact.value.myReserveOfPeer
    requires var t := n.transfers[id];
             && (t.outgoing ==> ((t.state.Committed? || t.state.Settled?) <==> (s.Committed? || s.Settled?)))
             && (!t.outgoing ==> (t.state.Settled? <==> s.Settled?))
    requires F.SamePrices(CoreOf(n), CoreOf(n'))
    ensures Kept(n')
  {
    hide P.Funded, CoreOf, Sound, CountOf, F.SamePrices;
    F.SamePricesFunded(CoreOf(n), CoreOf(n'));
    SameMoneyKept(n, n');
  }

  /** Taking up a transfer that is not in the map yet. */
  lemma NewKept(n: NodeState, n': NodeState, id: Id, t: Transfer)
    requires Kept(n) && id !in n.transfers && n'.transfers == n.transfers[id := t]
    requires t.state.Proposed? || t.state.Accepted?
    requires n'.book == n.book && n'.peerHost == n.peerHost && n.contact.Some? && n'.contact.Some?
    requires n'.contact.value.myReserveOfPeer == n.contact.value.myReserveOfPeer
    requires P.Funded(CoreOf(n'))
    ensures Kept(n')
  {
    hide P.Funded, CoreOf, Sound, CountOf;
    SameMoneyKept(n, n');
  }

  /** Booking a leg of a transfer, or anything that is no transfer. */
  lemma BookedKept(n: NodeState, n': NodeState, tx: Tx)
    requires Kept(n) && n'.peerHost == n.peerHost && Extends(n.book, n'.book, tx) && Shaped(tx)
    requires Get(n'.book.balances, Wallet(n)) == if n'.contact.Some? then n'.contact.value.myReserveOfPeer else 0
    requires P.Funded(CoreOf(n'))
    requires forall id ::
               && PaidCount(n'.transfers, id) == PaidCount(n.transfers, id) + Adds(tx, TransferOut, id)
               && ReceivedCount(n'.transfers, id) == ReceivedCount(n.transfers, id) + Adds(tx, TransferIn, id)
    ensures Kept(n')
  {
    hide Sound, P.Funded, CoreOf;
  }
}
