/** Where the money goes: which balances each booked operation of a node moves, and by how much. */
module NodeMoney {
  import opened Wrappers
  import opened PoolPricing
  import opened ChannelHistory
  import opened Ledgers
  import opened TransferStates
  import opened Messages
  import opened NodeSpec
  import opened NodeInvariant
  import opened NodeRecords
  import opened NodeSteps
  import opened NodeOpenSteps
  import opened NodeCommitSteps
  import opened NodeAdjustSteps
  import opened NodeInbound
  import opened Systems
  import opened SystemInvariant
  import opened SystemSafety
  import opened SystemPromises
  import opened SystemOutcomes
  import P = ProtocolInvariant

  // ----- addresses -----

  /** addr names the member: its bare name, or the name, an at sign, and anything. */
  ghost predicate Names(addr: string, name: string) {
    '@' !in name && (addr == name || exists rest: string :: addr == name + "@" + rest)
  }

  lemma {:induction false} LocalPartOf(addr: string, name: string)
    requires Names(addr, name)
    ensures LocalPart(addr) == name
  {
    if name == "" {
      if addr != "" {
        var rest: string :| addr == name + "@" + rest;
        assert addr[0] == '@';
      }
    } else if addr == name {
      assert name[0] in name;
      LocalPartOf(addr[1..], name[1..]) by {
        assert forall c :: c in name[1..] ==> c in name;
      }
    } else {
      var rest: string :| addr == name + "@" + rest;
      assert addr[0] == name[0] && name[0] in name;
      assert addr[1..] == name[1..] + "@" + rest;
      LocalPartOf(addr[1..], name[1..]) by {
        assert forall c :: c in name[1..] ==> c in name;
      }
    }
  }

  /** Every address names exactly one member. */
  lemma {:induction false} NamesOne(addr: string)
    ensures Names(addr, LocalPart(addr))
  {
    if addr == "" {
    } else if addr[0] == '@' {
      assert addr == "" + "@" + addr[1..];
    } else {
      NamesOne(addr[1..]);
      var name := LocalPart(addr[1..]);
      assert LocalPart(addr) == [addr[0]] + name;
      if addr[1..] == name {
        assert addr == [addr[0]] + name;
      } else {
        var rest: string :| addr[1..] == name + "@" + rest;
        assert addr == [addr[0]] + name + "@" + rest;
      }
    }
  }

  // ----- what moves -----

  /** Exactly x leaves one account and reaches another; no other balance moves. */
  ghost predicate Transfers(b: Book, b': Book, from: Account, to: Account, x: int) {
    && from != to
    && forall a :: Get(b'.balances, a) ==
                   Get(b.balances, a) + (if a == to then x else 0) - (if a == from then x else 0)
  }

  /** One record is added: of this type, about this operation, at the node's clock. */
  ghost predicate Logs(b: Book, b': Book, typ: TxType, ref: Option<Id>, ctx: Ctx) {
    && |b'.log| == |b.log| + 1 && b.log <= b'.log
    && var tx := b'.log[|b.log|].tx; tx.typ == typ && tx.ref == ref && tx.id == ctx.txId && tx.created == ctx.now
  }

  lemma TwoLegsMove(b: Book, ctx: Ctx, typ: TxType, ref: Option<Id>, to: Account, x: int, from: Account)
    requires to != from && Appended(b, TwoLegs(ctx, typ, ref, to, x, from, -x)).Success?
    ensures Transfers(b, Appended(b, TwoLegs(ctx, typ, ref, to, x, from, -x)).value, from, to, x)
    ensures Logs(b, Appended(b, TwoLegs(ctx, typ, ref, to, x, from, -x)).value, typ, ref, ctx)
  {
    var tx := TwoLegs(ctx, typ, ref, to, x, from, -x);
    TwoLegsAmounts(tx.entries[0], tx.entries[1]);
    forall a ensures Get(Appended(b, tx).value.balances, a) ==
                     Get(b.balances, a) + (if a == to then x else 0) - (if a == from then x else 0)
    {
      PostGet(b.balances, tx.entries, a);
    }
  }

  lemma TwoLegsTurned(b: Book, ctx: Ctx, typ: TxType, ref: Option<Id>, from: Account, x: int, to: Account)
    requires to != from && Appended(b, TwoLegs(ctx, typ, ref, from, -x, to, x)).Success?
    ensures Transfers(b, Appended(b, TwoLegs(ctx, typ, ref, from, -x, to, x)).value, from, to, x)
    ensures Logs(b, Appended(b, TwoLegs(ctx, typ, ref, from, -x, to, x)).value, typ, ref, ctx)
  {
    TwoLegsMove(b, ctx, typ, ref, from, -x, to);
  }

  // ----- the payer's debit and the payee's credit -----

  lemma DebitMoves(n: NodeState, y: P.Core, sx: Sent, sy: Sent, t: Id, ctx: Ctx, name: string)
    requires Good(n, y, sx, sy) && t in n.transfers && n.transfers[t].outgoing && n.transfers[t].state.Proposed?
    requires Names(n.transfers[t].fromMember, name) && ctx.now <= n.transfers[t].expires
    ensures Transfers(n.book, HandleTransferAccept(n, TransferAccept(t), ctx).node.book,
                      Member(name), NodeWallet(n.peerHost), n.transfers[t].src)
    ensures Logs(n.book, HandleTransferAccept(n, TransferAccept(t), ctx).node.book, TransferOut, Some(t), ctx)
  {
    hide Good, CommitOutgoing, CommittedNode, Appended, Transfers, Logs;
    GoodLinked(n, y, sx, sy);
    LocalPartOf(n.transfers[t].fromMember, name);
    var book := CommitRuns(n, y, sx, sy, t, ctx);
    BookOfCommit(n, t, book);
    TwoLegsTurned(n.book, ctx, TransferOut, Some(t), Member(name), n.transfers[t].src, Wallet(n));
  }

  lemma BookOfCommit(n: NodeState, t: Id, book: Book)
    requires t in n.transfers && n.contact.Some?
    ensures CommittedNode(n, t, book).book == book
  {
    hide ApplyTransfer;
  }

  /** In every reachable state, for a payer named with or without its host: the acceptance that
      commits takes exactly src from that member and puts it into the peer's wallet. */
  lemma PaymentLeaves(me: Side, n: NodeState, peer: Side, m: NodeState, i: nat, ctx: Ctx, autoSeed: int, name: string)
    requires Met(me, n, peer, m) && i < |peer.sent| && peer.sent[i].body.TransferAccept?
    requires Validate(peer.sent[i], n.seen, n.lastSeq, ctx.now).Ok?
    requires var t := peer.sent[i].body.transferId;
             && StateOf(n, t) == Some(Proposed) && ctx.now <= n.transfers[t].expires
             && Names(n.transfers[t].fromMember, name)
    ensures var t := peer.sent[i].body.transferId;
            Transfers(n.book, ProcessInbound(n, peer.sent[i], ctx, autoSeed).node.book,
                      Member(name), NodeWallet(n.peerHost), n.transfers[t].src)
    ensures var t := peer.sent[i].body.transferId;
            Logs(n.book, ProcessInbound(n, peer.sent[i], ctx, autoSeed).node.book, TransferOut, Some(t), ctx)
  {
    hide Met, Good, HandleTransferAccept, Transfers, Logs, Names;
    AcceptanceFinds(me, n, peer, m, i);
    MetGood(me, n, peer, m);
    DebitMoves(n, CoreOf(m), me.sent, peer.sent, peer.sent[i].body.transferId, ctx, name);
  }

  lemma CreditMoves(n: NodeState, y: P.Core, sx: Sent, sy: Sent, t: Id, ctx: Ctx, name: string)
    requires Good(n, y, sx, sy) && t in n.transfers && !n.transfers[t].outgoing && n.transfers[t].state.Accepted?
    requires Names(n.transfers[t].toMember, name)
    ensures Transfers(n.book, HandleTransferCommit(n, TransferCommit(t), ctx).node.book,
                      NodeWallet(n.peerHost), Member(name), n.transfers[t].dst)
    ensures Logs(n.book, HandleTransferCommit(n, TransferCommit(t), ctx).node.book, TransferIn, Some(t), ctx)
  {
    hide Good, SettleIncoming, SettledNode, Appended, Transfers, Logs;
    GoodLinked(n, y, sx, sy);
    LocalPartOf(n.transfers[t].toMember, name);
    var book := SettleRuns(n, y, sx, sy, t, ctx);
    BookOfPayout(n, t, book);
    TwoLegsTurned(n.book, ctx, TransferIn, Some(t), Wallet(n), n.transfers[t].dst, Member(name));
  }

  lemma BookOfPayout(n: NodeState, t: Id, book: Book)
    requires t in n.transfers && n.contact.Some?
    ensures SettledNode(n, t, book).book == book && t in SettledNode(n, t, book).transfers
  {
    hide ApplyTransfer;
  }

  /** In every reachable state, for a payee named with or without its host: the commit that settles
      takes exactly dst from the peer's wallet and gives it to that member. */
  lemma PayoutArrives(me: Side, n: NodeState, peer: Side, m: NodeState, i: nat, ctx: Ctx, autoSeed: int, name: string)
    requires Met(me, n, peer, m) && i < |peer.sent| && peer.sent[i].body.TransferCommit?
    requires Validate(peer.sent[i], n.seen, n.lastSeq, ctx.now).Ok?
    requires var t := peer.sent[i].body.transferId;
             StateOf(n, t) == Some(Accepted) && Names(n.transfers[t].toMember, name)
    ensures var t := peer.sent[i].body.transferId;
            Transfers(n.book, ProcessInbound(n, peer.sent[i], ctx, autoSeed).node.book,
                      NodeWallet(n.peerHost), Member(name), n.transfers[t].dst)
    ensures var t := peer.sent[i].body.transferId;
            Logs(n.book, ProcessInbound(n, peer.sent[i], ctx, autoSeed).node.book, TransferIn, Some(t), ctx)
  {
    hide Met, Good, HandleTransferCommit, Transfers, Logs, Names;
    CommitFinds(me, n, peer, m, i);
    MetGood(me, n, peer, m);
    CreditMoves(n, CoreOf(m), me.sent, peer.sent, peer.sent[i].body.transferId, ctx, name);
  }

  // ----- seeds and adjustments -----

  /** A seed goes from issuance into the peer's wallet: the proposer's on activation. */
  lemma SeedIsPlaced(n: NodeState, y: P.Core, sx: Sent, sy: Sent, b: Body, ctx: Ctx)
    requires Good(n, y, sx, sy) && AwaitsSeed(n) && b.ContactAccept? && b.contactId == n.contact.value.id
             && b.mySeed > 0
    ensures Transfers(n.book, HandleContactAccept(n, b, ctx).node.book,
                      Issuance, NodeWallet(n.peerHost), n.contact.value.proposerSeed)
    ensures Logs(n.book, HandleContactAccept(n, b, ctx).node.book, ContactSeed, None, ctx)
  {
    hide Good, Appended, Transfers, Logs, ApplySeed;
    SeedBooked(n, y, sx, sy, ctx);
    TwoLegsMove(n.book, ctx, ContactSeed, None, Wallet(n), n.contact.value.proposerSeed, Issuance);
  }

  /** The responder's seed, when it takes the contact up. */
  lemma OwnSeedIsPlaced(n: NodeState, y: P.Core, sx: Sent, sy: Sent, b: Body, ctx: Ctx, autoSeed: int)
    requires Good(n, y, sx, sy) && n.contact.None? && b.ContactPropose? && b.mySeed > 0 && autoSeed > 0
    ensures Transfers(n.book, HandleContactPropose(n, b, ctx, autoSeed).node.book, Issuance, NodeWallet(n.peerHost),
                      autoSeed)
    ensures Logs(n.book, HandleContactPropose(n, b, ctx, autoSeed).node.book, ContactSeed, None, ctx)
  {
    hide Good, Appended, Transfers, Logs, ApplySeed;
    SeedingFits(n, y, sx, sy, ctx, autoSeed);
    TwoLegsMove(n.book, ctx, ContactSeed, None, Wallet(n), autoSeed, Issuance);
  }

  /** A booked adjustment moves its delta, of either sign, from the treasury into the peer's wallet. */
  lemma AdjustmentIsBooked(n: NodeState, y: P.Core, sx: Sent, sy: Sent, b: Body, ctx: Ctx)
    requires Good(n, y, sx, sy) && b.ReserveAccept? && n.contact.Some?
             && n.contact.value.pendingAdjust == Some(b.adjustId)
    ensures Transfers(n.book, HandleReserveAccept(n, b, ctx).node.book,
                      Treasury, NodeWallet(n.peerHost), n.contact.value.pendingDelta)
    ensures Logs(n.book, HandleReserveAccept(n, b, ctx).node.book, TxType.ReserveAdjust, Some(b.adjustId), ctx)
  {
    hide Good, Appended, Transfers, Logs, ApplyAdjust;
    AdjustBooked(n, y, sx, sy, ctx, b.adjustId);
    TwoLegsMove(n.book, ctx, TxType.ReserveAdjust, Some(b.adjustId), Wallet(n), n.contact.value.pendingDelta, Treasury);
  }

  // ----- nothing else -----

  /** The messages that may book something, and from which state. */
  predicate MayBook(n: NodeState, b: Body, now: int) {
    match b
    case ContactPropose(_, _) => n.contact.None?
    case ContactAccept(_, _) => n.contact.Some? && n.contact.value.iAmProposer && !n.contact.value.active
    case TransferAccept(t) => StateOf(n, t) == Some(Proposed) && n.transfers[t].outgoing
      && now <= n.transfers[t].expires
    case TransferCommit(t) => StateOf(n, t) == Some(Accepted) && !n.transfers[t].outgoing
    case ReserveAccept(_, a) => n.contact.Some? && n.contact.value.pendingAdjust == Some(a)
    case _ => false
  }

  lemma OpeningBooks(n: NodeState, b: Body, ctx: Ctx, autoSeed: int)
    ensures b.ContactPropose? && !MayBook(n, b, ctx.now) ==>
              HandleContactPropose(n, b, ctx, autoSeed).node.book == n.book
    ensures b.ContactAccept? && !MayBook(n, b, ctx.now) ==> HandleContactAccept(n, b, ctx).node.book == n.book
    ensures b.ReserveAccept? && !MayBook(n, b, ctx.now) ==> HandleReserveAccept(n, b, ctx).node.book == n.book
  {
    hide Appended, ApplySeed, ApplyAdjust;
  }

  lemma ReleaseBook(n: NodeState, id: Id, now: int)
    ensures ExpireIfDue(n, id, now).book == n.book && ReleaseIfBusyExpired(n, now).book == n.book
  {
  }

  lemma PaymentBooks(n: NodeState, b: Body, ctx: Ctx)
    ensures b.TransferAccept? && !MayBook(n, b, ctx.now) && (StateOf(n, b.transferId) != Some(Accepted)) ==>
              HandleTransferAccept(n, b, ctx).node.book == n.book
    ensures b.TransferCommit? && !MayBook(n, b, ctx.now) && (StateOf(n, b.transferId) != Some(Proposed)) ==>
              HandleTransferCommit(n, b, ctx).node.book == n.book
  {
    hide CommitOutgoing, SettleIncoming, ExpireIfDue;
    if b.TransferAccept? {
      ReleaseBook(n, b.transferId, ctx.now);
    }
  }

  lemma PlainBooks(n: NodeState, b: Body, ctx: Ctx)
    ensures b.TransferPropose? ==> HandleTransferPropose(n, b, ctx).node.book == n.book
    ensures b.ReserveAdjust? ==> HandleReserveAdjust(n, b, ctx).node.book == n.book
    ensures b.TransferReceipt? ==> HandleTransferReceipt(n, b, ctx).node.book == n.book
    ensures b.TransferReject? ==> HandleTransferReject(n, b).node.book == n.book
    ensures b.TransferAbort? ==> HandleTransferAbort(n, b).node.book == n.book
  {
    hide ReleaseIfBusyExpired, ApplyAdjust, PoolPrice, LocalPart;
    ReleaseBook(n, Uuid(""), ctx.now);
  }

  /** No other message moves any money. */
  lemma OthersBookNothing(n: NodeState, y: P.Core, sx: Sent, sy: Sent, b: Body, ctx: Ctx, autoSeed: int)
    requires Good(n, y, sx, sy) && !MayBook(n, b, ctx.now)
    ensures Route(n, b, ctx, autoSeed).node.book == n.book
  {
    hide Good, MayBook, HandleContactPropose, HandleContactAccept, HandleTransferPropose, HandleTransferAccept,
      HandleTransferReject, HandleTransferCommit, HandleTransferReceipt, HandleTransferAbort, HandleReserveAdjust,
      HandleReserveAccept;
    OpeningBooks(n, b, ctx, autoSeed);
    PlainBooks(n, b, ctx);
    if (b.TransferAccept? || b.TransferCommit?) && b.transferId in n.transfers {
      SideStates(n, y, sx, sy, b.transferId);
      OneSided(n, b, ctx);
    } else {
      PaymentBooks(n, b, ctx);
    }
  }

  lemma SideStates(n: NodeState, y: P.Core, sx: Sent, sy: Sent, t: Id)
    requires Good(n, y, sx, sy) && t in n.transfers
    ensures n.transfers[t].outgoing ==> !n.transfers[t].state.Accepted?
    ensures !n.transfers[t].outgoing ==> !n.transfers[t].state.Proposed?
  {
    hide Kept, Logged, Linked, P.Pairing, P.Flow, P.Agree;
    assert CoreOf(n).legs[t] == LegOf(n.transfers[t]);
  }

  lemma OneSided(n: NodeState, b: Body, ctx: Ctx)
    requires (b.TransferAccept? || b.TransferCommit?) && b.transferId in n.transfers && !MayBook(n, b, ctx.now)
    requires var t := n.transfers[b.transferId]; if t.outgoing then !t.state.Accepted? else !t.state.Proposed?
    ensures b.TransferAccept? ==> HandleTransferAccept(n, b, ctx).node.book == n.book
    ensures b.TransferCommit? ==> HandleTransferCommit(n, b, ctx).node.book == n.book
  {
    hide CommitOutgoing, SettleIncoming, ExpireIfDue;
    ReleaseBook(n, b.transferId, ctx.now);
  }
}
