/** Committing, settling and ending a transfer as protocol moves. */
module NodeCommitSteps {
  import opened Wrappers
  import opened PoolPricing
  import opened ChannelHistory
  import opened Ledgers
  import opened Supply
  import opened TransferStates
  import opened Messages
  import opened NodeSpec
  import opened NodeInvariant
  import opened NodeRecords
  import opened NodeSteps
  import P = ProtocolInvariant
  import M = ProtocolMoves
  import C = ProtocolCommits
  import F = ProtocolFunds

  // ----- what a committed leg does to the contact -----

  function Paid(c: Contact, id: Id, src: int, dst: int): Contact {
    ApplyTransfer(c.(myReserveOfPeer := c.myReserveOfPeer + src, peerReserveOfMe := c.peerReserveOfMe - dst),
                  id, src, dst, c.iAmProposer)
  }

  function PaidOut(c: Contact, id: Id, src: int, dst: int): Contact {
    ApplyTransfer(c.(peerReserveOfMe := c.peerReserveOfMe + src, myReserveOfPeer := c.myReserveOfPeer - dst),
                  id, src, dst, !c.iAmProposer)
  }

  lemma PaidOk(c: Contact, id: Id, src: int, dst: int)
    requires ContactOk(c) && c.history != []
    ensures ContactOk(Paid(c, id, src, dst))
    ensures Paid(c, id, src, dst).history == c.history + [Transferred(id, c.iAmProposer, src, dst)]
  {
    hide RootOf, ChannelNext, Reserves, Padded;
    TransferRooted(c.(myReserveOfPeer := c.myReserveOfPeer + src, peerReserveOfMe := c.peerReserveOfMe - dst),
                   id, src, dst, c.iAmProposer);
    ReservesAppend(c.history, Transferred(id, c.iAmProposer, src, dst));
  }

  lemma PaidOutOk(c: Contact, id: Id, src: int, dst: int)
    requires ContactOk(c) && c.history != []
    ensures ContactOk(PaidOut(c, id, src, dst)) && ContactOk(Unlocked(PaidOut(c, id, src, dst)))
    ensures PaidOut(c, id, src, dst).history == c.history + [Transferred(id, !c.iAmProposer, src, dst)]
  {
    hide RootOf, ChannelNext, Reserves, Padded;
    TransferRooted(c.(peerReserveOfMe := c.peerReserveOfMe + src, myReserveOfPeer := c.myReserveOfPeer - dst),
                   id, src, dst, !c.iAmProposer);
    ReservesAppend(c.history, Transferred(id, !c.iAmProposer, src, dst));
  }

  /** Paying out changes the history with its roots, and the two reserves. */
  lemma PaidOutFields(c: Contact, id: Id, src: int, dst: int)
    ensures PaidOut(c, id, src, dst).(root := c.root, roots := c.roots, opSeq := c.opSeq, history := c.history,
                                      myReserveOfPeer := c.myReserveOfPeer, peerReserveOfMe := c.peerReserveOfMe) == c
  {
    hide ChannelNext, Padded;
  }

  // ----- a live leg's amounts fit the reserves -----

  lemma LivePriced(n: NodeState, y: P.Core, sx: Sent, sy: Sent, id: Id)
    requires Good(n, y, sx, sy) && id in n.transfers
    requires n.transfers[id].state.Proposed? || n.transfers[id].state.Accepted?
    ensures n.contact.Some? && n.contact.value.history != []
    ensures var t, c := n.transfers[id], n.contact.value;
            PriceFor(Reserves(c.history), t.outgoing == c.iAmProposer, t.src) == Success(t.dst)
  {
    hide Good, P.Local, P.Priced, Reserves, PriceFor;
    EarlyIsLive(n, y, sx, sy, id);
    LiveHolds(n, y, sx, sy, id);
    IsLocal(n, y, sx, sy);
    IsPriced(n, y, sx, sy);
    F.LiveIsPriced(CoreOf(n), id);
  }

  lemma IsPriced(n: NodeState, y: P.Core, sx: Sent, sy: Sent)
    requires Good(n, y, sx, sy)
    ensures P.Priced(CoreOf(n))
  {
    hide P.Inv, Linked, Logged, Sound, CountOf, CoreOf, P.Priced, P.Covered, P.Charged;
  }

  function OutTx(n: NodeState, ctx: Ctx, id: Id, t: Transfer): Tx {
    TwoLegs(ctx, TransferOut, Some(id), MemberAccount(t.fromMember), -t.src, Wallet(n), t.src)
  }

  function InTx(n: NodeState, ctx: Ctx, id: Id, t: Transfer): Tx {
    TwoLegs(ctx, TransferIn, Some(id), Wallet(n), -t.dst, MemberAccount(t.toMember), t.dst)
  }

  /** Neither leg of a transfer touches the money supply. */
  lemma LegsAreShaped(n: NodeState, ctx: Ctx, id: Id, t: Transfer)
    ensures Shaped(OutTx(n, ctx, id, t)) && Shaped(InTx(n, ctx, id, t))
    ensures Issued(OutTx(n, ctx, id, t)) == 0 && Issued(InTx(n, ctx, id, t)) == 0
  {
    TwoLegsIssue(ctx, TransferOut, Some(id), MemberAccount(t.fromMember), -t.src, Wallet(n));
    TwoLegsIssue(ctx, TransferIn, Some(id), Wallet(n), -t.dst, MemberAccount(t.toMember));
    hide Issued;
  }

  lemma PricedPays(pool: Pool, byProposer: bool, src: int, dst: int)
    requires PriceFor(pool, byProposer, src) == Success(dst)
    ensures src > 0 && 0 < dst < if byProposer then pool.responderSide else pool.proposerSide
  {
  }

  lemma WalletIs(n: NodeState, y: P.Core, sx: Sent, sy: Sent)
    requires Good(n, y, sx, sy) && n.contact.Some?
    ensures Get(n.book.balances, Wallet(n)) == Held(n.contact.value, Reserves(n.contact.value.history))
    ensures Get(n.book.balances, Wallet(n)) >= 0
  {
    hide Rooted, P.Funded, Reserves, P.Inv, Logged, Sound, CountOf;
    FundsHold(n);
  }

  /** The payer's leg of a proposed transfer is never refused by the ledger. */
  lemma OutBooked(n: NodeState, y: P.Core, sx: Sent, sy: Sent, ctx: Ctx, id: Id)
    requires Good(n, y, sx, sy) && id in n.transfers && n.transfers[id].state.Proposed?
    ensures n.transfers[id].src > 0 && Appended(n.book, OutTx(n, ctx, id, n.transfers[id])).Success?
  {
    hide Good, Reserves, PriceFor, Appended;
    EarlyIsLive(n, y, sx, sy, id);
    LivePriced(n, y, sx, sy, id);
    WalletIs(n, y, sx, sy);
    var t := n.transfers[id];
    PricedPays(Reserves(n.contact.value.history), t.outgoing == n.contact.value.iAmProposer, t.src, t.dst);
    TwoLegsBooked(n.book, ctx, TransferOut, Some(id), MemberAccount(t.fromMember), -t.src, Wallet(n));
  }

  /** The payee's leg of an accepted transfer is never refused by the ledger: accepting was a promise. */
  lemma InBooked(n: NodeState, y: P.Core, sx: Sent, sy: Sent, ctx: Ctx, id: Id)
    requires Good(n, y, sx, sy) && id in n.transfers && n.transfers[id].state.Accepted?
    ensures n.transfers[id].dst > 0 && Appended(n.book, InTx(n, ctx, id, n.transfers[id])).Success?
  {
    hide Good, Reserves, PriceFor, Appended;
    EarlyIsLive(n, y, sx, sy, id);
    LivePriced(n, y, sx, sy, id);
    WalletIs(n, y, sx, sy);
    var t := n.transfers[id];
    PricedPays(Reserves(n.contact.value.history), t.outgoing == n.contact.value.iAmProposer, t.src, t.dst);
    TwoLegsBooked(n.book, ctx, TransferIn, Some(id), Wallet(n), -t.dst, MemberAccount(t.toMember));
  }

  // ----- the payer on an acceptance -----

  function CommittedNode(n: NodeState, id: Id, book: Book): NodeState
    requires id in n.transfers && n.contact.Some?
  {
    var t, c := n.transfers[id], n.contact.value;
    SetState(n.(book := book, contact := Some(Paid(c, id, t.src, t.dst))), id, Committed)
  }

  lemma CommittedIs(n: NodeState, id: Id, book: Book)
    requires Linked(n) && id in n.transfers && n.transfers[id].outgoing
    requires n.contact.Some? && n.contact.value.history != []
    ensures Linked(CommittedNode(n, id, book))
    ensures CoreOf(CommittedNode(n, id, book)) == C.CommitLeg(CoreOf(n), id)
  {
    var t, c := n.transfers[id], n.contact.value;
    PaidOk(c, id, t.src, t.dst);
    LegsUpdate(n.transfers, id, t.(state := Committed));
    hide ContactOk;
  }

  lemma CommittedKept(n: NodeState, ctx: Ctx, id: Id, book: Book)
    requires Linked(n) && Kept(n) && P.Local(CoreOf(n)) && id in n.transfers
    requires n.transfers[id].outgoing && n.transfers[id].state.Proposed?
    requires n.contact.Some? && n.contact.value.history != [] && CoreOf(n).pending.None?
    requires Appended(n.book, OutTx(n, ctx, id, n.transfers[id])) == Success(book)
    ensures Kept(CommittedNode(n, id, book))
  {
    hide Linked, P.Local, Sound, CountOf, Appended, P.Funded, Reserves, CommittedNode, Shaped, EntrySum;
    CommittedIs(n, id, book);
    var t := n.transfers[id];
    F.TransferFunded(CoreOf(n), C.CommitLeg(CoreOf(n), id), id);
    TwoLegsExtends(n.book, ctx, TransferOut, Some(id), MemberAccount(t.fromMember), -t.src, Wallet(n), book);
    CommittedMoney(n, ctx, id, book);
    LegsAreShaped(n, ctx, id, t);
    BookedKept(n, CommittedNode(n, id, book), OutTx(n, ctx, id, t));
  }

  lemma CommittedMoney(n: NodeState, ctx: Ctx, id: Id, book: Book)
    requires id in n.transfers && n.contact.Some? && n.transfers[id].outgoing && n.transfers[id].state.Proposed?
    ensures var n' := CommittedNode(n, id, book);
            var tx := OutTx(n, ctx, id, n.transfers[id]);
            && n'.peerHost == n.peerHost && n'.book == book && n'.contact.Some?
            && n'.contact.value.myReserveOfPeer == n.contact.value.myReserveOfPeer + n.transfers[id].src
            && (forall u ::
                 && PaidCount(n'.transfers, u) == PaidCount(n.transfers, u) + Adds(tx, TransferOut, u)
                 && ReceivedCount(n'.transfers, u) == ReceivedCount(n.transfers, u) + Adds(tx, TransferIn, u))
            && n'.outSeq == n.outSeq && n'.replies == n.replies && n'.lastSeq == n.lastSeq
            && n'.transfers == n.transfers[id := n.transfers[id].(state := Committed)]
  {
  }

  lemma CommitGood(n: NodeState, y: P.Core, sx: Sent, sy: Sent, ctx: Ctx, id: Id, book: Book)
    requires Good(n, y, sx, sy) && id in n.transfers && n.transfers[id].outgoing && n.transfers[id].state.Proposed?
    requires CoreOf(n).hist == y.hist && id in y.legs && !P.ActedOn(y, CoreOf(n)) && n.contact.Some?
    requires Appended(n.book, OutTx(n, ctx, id, n.transfers[id])) == Success(book)
    ensures Good(CommittedNode(n, id, book), y, sx, sy)
  {
    hide P.Inv, Linked, Kept, Logged, Appended, P.Local, CommittedNode;
    EarlyIsLive(n, y, sx, sy, id);
    LiveHolds(n, y, sx, sy, id);
    IsLocal(n, y, sx, sy);
    CommittedIs(n, id, book);
    CommittedKept(n, ctx, id, book);
    C.CommitKeeps(CoreOf(n), y, sx, sy, id);
    CommittedMoney(n, ctx, id, book);
    SameLogged(n, CommittedNode(n, id, book), sx);
  }

  /** On an acceptance of a proposed transfer the commit goes through: the ledger takes the leg. */
  lemma CommitRuns(n: NodeState, y: P.Core, sx: Sent, sy: Sent, id: Id, ctx: Ctx) returns (book: Book)
    requires Good(n, y, sx, sy) && n.contact.Some?
    requires id in n.transfers && n.transfers[id].outgoing && n.transfers[id].state.Proposed?
    ensures Appended(n.book, OutTx(n, ctx, id, n.transfers[id])) == Success(book)
    ensures CommitOutgoing(SetState(n, id, Accepted), id, ctx) ==
              Send(CommittedNode(n, id, book), ctx, TransferCommit(id))
  {
    hide Good, ApplyTransfer, Appended;
    OutBooked(n, y, sx, sy, ctx, id);
    book := Appended(n.book, OutTx(n, ctx, id, n.transfers[id])).value;
    var t := n.transfers[id];
    assert SetState(n, id, Accepted).transfers[id := t.(state := Committed)] == CommittedNode(n, id, book).transfers;
  }

  lemma TransferAcceptGood(n: NodeState, y: P.Core, sx: Sent, sy: Sent, i: nat, ctx: Ctx)
    requires Good(n, y, sx, sy) && i < |sy| && sy[i].body.TransferAccept?
    requires M.Readable(CoreOf(n), y, sx, sy, i)
    ensures var o := HandleTransferAccept(n, sy[i].body, ctx); Good(o.node, y, With(sx, o.out), sy)
  {
    hide Good, ExpireIfDue, CommitOutgoing;
    var id := sy[i].body.transferId;
    if id !in n.transfers || !n.transfers[id].outgoing {
      NoteGood(n, y, sx, sy, ctx, ErrorReply(UnknownTransfer));
    } else if !OwnsContact(n, n.transfers[id].contactId) {
      NoteGood(n, y, sx, sy, ctx, ErrorReply(WrongSender));
    } else if n.transfers[id].state.Committed? || n.transfers[id].state.Settled? {
    } else if Due(n, id, ctx.now) {
      ExpireGood(n, y, sx, sy, id, ctx.now);
      NoteGood(ExpireIfDue(n, id, ctx.now), y, sx, sy, ctx, TransferAbort(id));
    } else if Transition(n.transfers[id].state, Accept).None? {
      NoteGood(n, y, sx, sy, ctx, ErrorReply(BadState));
    } else {
      ProposedCommits(n, y, sx, sy, id, ctx);
    }
  }

  lemma ProposedCommits(n: NodeState, y: P.Core, sx: Sent, sy: Sent, id: Id, ctx: Ctx)
    requires Good(n, y, sx, sy) && n.contact.Some?
    requires id in n.transfers && n.transfers[id].outgoing && n.transfers[id].state.Proposed?
    requires CoreOf(n).hist == y.hist && id in y.legs && !P.ActedOn(y, CoreOf(n))
    ensures var o := CommitOutgoing(SetState(n, id, Accepted), id, ctx); Good(o.node, y, With(sx, o.out), sy)
  {
    hide Good, CommitOutgoing, Appended, CommittedNode, C.CommitLeg;
    var book := CommitRuns(n, y, sx, sy, id, ctx);
    CommitGood(n, y, sx, sy, ctx, id, book);
    CommittedBacks(n, id, book);
    NoteGood(CommittedNode(n, id, book), y, sx, sy, ctx, TransferCommit(id));
  }

  lemma CommittedBacks(n: NodeState, id: Id, book: Book)
    requires id in n.transfers && n.transfers[id].outgoing && n.contact.Some?
    ensures P.Backs(CoreOf(CommittedNode(n, id, book)), TransferCommit(id))
  {
  }

  // ----- the payee on a commit -----

  function SettledNode(n: NodeState, id: Id, book: Book): NodeState
    requires id in n.transfers && n.contact.Some?
  {
    var t, c := n.transfers[id], n.contact.value;
    SetState(n.(book := book, contact := Some(Unlocked(PaidOut(c, id, t.src, t.dst)))), id, Settled)
  }

  lemma SettledIs(n: NodeState, id: Id, book: Book)
    requires Linked(n) && id in n.transfers && !n.transfers[id].outgoing
    requires n.contact.Some? && n.contact.value.history != []
    ensures Linked(SettledNode(n, id, book))
    ensures CoreOf(SettledNode(n, id, book)) == C.SettleLeg(CoreOf(n), id)
  {
    hide ContactOk, PaidOut;
    var t, c := n.transfers[id], n.contact.value;
    PaidOutOk(c, id, t.src, t.dst);
    PaidOutFields(c, id, t.src, t.dst);
    LegsUpdate(n.transfers, id, t.(state := Settled));
  }

  lemma SettledKept(n: NodeState, ctx: Ctx, id: Id, book: Book)
    requires Linked(n) && Kept(n) && P.Local(CoreOf(n)) && id in n.transfers
    requires !n.transfers[id].outgoing && n.transfers[id].state.Accepted?
    requires n.contact.Some? && n.contact.value.history != [] && CoreOf(n).pending.None?
    requires Appended(n.book, InTx(n, ctx, id, n.transfers[id])) == Success(book)
    ensures Kept(SettledNode(n, id, book))
  {
    hide Linked, P.Local, Sound, CountOf, Appended, P.Funded, Reserves, SettledNode, Shaped, EntrySum;
    SettledIs(n, id, book);
    var t := n.transfers[id];
    F.TransferFunded(CoreOf(n), C.SettleLeg(CoreOf(n), id), id);
    TwoLegsExtends(n.book, ctx, TransferIn, Some(id), Wallet(n), -t.dst, MemberAccount(t.toMember), book);
    SettledMoney(n, ctx, id, book);
    LegsAreShaped(n, ctx, id, t);
    BookedKept(n, SettledNode(n, id, book), InTx(n, ctx, id, t));
  }

  lemma SettledMoney(n: NodeState, ctx: Ctx, id: Id, book: Book)
    requires id in n.transfers && n.contact.Some? && !n.transfers[id].outgoing && n.transfers[id].state.Accepted?
    ensures var n' := SettledNode(n, id, book);
            var tx := InTx(n, ctx, id, n.transfers[id]);
            && n'.peerHost == n.peerHost && n'.book == book && n'.contact.Some?
            && n'.contact.value.myReserveOfPeer == n.contact.value.myReserveOfPeer - n.transfers[id].dst
            && (forall u ::
                 && PaidCount(n'.transfers, u) == PaidCount(n.transfers, u) + Adds(tx, TransferOut, u)
                 && ReceivedCount(n'.transfers, u) == ReceivedCount(n.transfers, u) + Adds(tx, TransferIn, u))
            && n'.outSeq == n.outSeq && n'.replies == n.replies && n'.lastSeq == n.lastSeq
            && n'.transfers == n.transfers[id := n.transfers[id].(state := Settled)]
  {
  }

  lemma SettleGood(n: NodeState, y: P.Core, sx: Sent, sy: Sent, ctx: Ctx, id: Id, book: Book)
    requires Good(n, y, sx, sy) && id in n.transfers && !n.transfers[id].outgoing && n.transfers[id].state.Accepted?
    requires id in y.legs && y.legs[id].state.Committed? && n.contact.Some?
    requires Appended(n.book, InTx(n, ctx, id, n.transfers[id])) == Success(book)
    ensures Good(SettledNode(n, id, book), y, sx, sy)
  {
    hide P.Inv, Linked, Kept, Logged, Appended, P.Local, SettledNode;
    EarlyIsLive(n, y, sx, sy, id);
    LiveHolds(n, y, sx, sy, id);
    IsLocal(n, y, sx, sy);
    SettledIs(n, id, book);
    SettledKept(n, ctx, id, book);
    C.SettleKeeps(CoreOf(n), y, sx, sy, id);
    SettledMoney(n, ctx, id, book);
    SameLogged(n, SettledNode(n, id, book), sx);
  }

  /** On the commit of an accepted transfer the payout goes through: the ledger takes the leg. */
  lemma SettleRuns(n: NodeState, y: P.Core, sx: Sent, sy: Sent, id: Id, ctx: Ctx) returns (book: Book)
    requires Good(n, y, sx, sy) && n.contact.Some?
    requires id in n.transfers && !n.transfers[id].outgoing && n.transfers[id].state.Accepted?
    ensures Appended(n.book, InTx(n, ctx, id, n.transfers[id])) == Success(book)
    ensures SettleIncoming(SetState(n, id, Committed), id, ctx) == Receipted(SettledNode(n, id, book), id, ctx)
  {
    hide Good, ApplyTransfer, Appended;
    InBooked(n, y, sx, sy, ctx, id);
    book := Appended(n.book, InTx(n, ctx, id, n.transfers[id])).value;
    var t := n.transfers[id];
    assert SetState(n, id, Committed).transfers[id := t.(state := Settled)] == SettledNode(n, id, book).transfers;
  }

  lemma ReceiptIs(n: NodeState, id: Id, ctx: Ctx)
    requires Linked(n) && Kept(n) && id in n.transfers && !n.transfers[id].outgoing
    ensures var n' := Receipted(n, id, ctx).node; Linked(n') && Kept(n') && CoreOf(n') == CoreOf(n)
  {
    var o := Send(n, ctx, TransferReceipt(id));
    SendKeeps(n, ctx, TransferReceipt(id));
    hide Kept, ContactOk;
    var n' := Receipted(n, id, ctx).node;
    LegsUpdate(n.transfers, id, n'.transfers[id]);
    assert LegsOf(n'.transfers) == LegsOf(n.transfers);
    ReceiptKept(o.node, n', id);
  }

  lemma ReceiptKept(n: NodeState, n': NodeState, id: Id)
    requires Kept(n) && id in n.transfers && id in n'.transfers && CoreOf(n') == CoreOf(n)
    requires n' == n.(transfers := n.transfers[id := n.transfers[id].(receipt := n'.transfers[id].receipt)])
    ensures Kept(n')
  {
    hide Sound, CountOf, P.Funded, CoreOf;
    SameMoneyKept(n, n');
  }

  lemma ReceiptLogged(n: NodeState, sx: Sent, id: Id, ctx: Ctx)
    requires Logged(n, sx) && id in n.transfers
    ensures var o := Receipted(n, id, ctx); Logged(o.node, With(sx, o.out))
  {
  }

  lemma ReceiptGood(n: NodeState, y: P.Core, sx: Sent, sy: Sent, id: Id, ctx: Ctx)
    requires Good(n, y, sx, sy) && id in n.transfers && !n.transfers[id].outgoing && n.transfers[id].state.Settled?
    ensures var o := Receipted(n, id, ctx); Good(o.node, y, With(sx, o.out), sy)
  {
    hide P.Inv, Linked, Kept, Logged;
    var o := Receipted(n, id, ctx);
    M.NoteKeeps(CoreOf(n), y, sx, sy, o.out.value) by { SettledBacks(n, id); }
    ReceiptIs(n, id, ctx);
    ReceiptLogged(n, sx, id, ctx);
  }

  lemma SettledBacks(n: NodeState, id: Id)
    requires id in n.transfers && !n.transfers[id].outgoing && n.transfers[id].state.Settled?
    ensures P.Backs(CoreOf(n), TransferReceipt(id))
  {
  }

  lemma TransferCommitGood(n: NodeState, y: P.Core, sx: Sent, sy: Sent, i: nat, ctx: Ctx)
    requires Good(n, y, sx, sy) && i < |sy| && sy[i].body.TransferCommit? && P.Backs(y, sy[i].body)
    ensures var o := HandleTransferCommit(n, sy[i].body, ctx);
            var sx' := SentAfter(sx, n, o.node, o.out);
            Good(o.node, y, sx', sy) && (o.out.Some? ==> o.out.value in sx')
  {
    hide Good, SettleIncoming;
    OutSeqIs(n, y, sx, sy);
    var id := sy[i].body.transferId;
    if id !in n.transfers || n.transfers[id].outgoing {
      NoteGood(n, y, sx, sy, ctx, ErrorReply(UnknownTransfer));
    } else if !OwnsContact(n, n.transfers[id].contactId) {
      NoteGood(n, y, sx, sy, ctx, ErrorReply(WrongSender));
    } else if n.transfers[id].state.Settled? || n.transfers[id].state.Committed? {
      if n.transfers[id].receipt.Some? {
        ReceiptIsSent(n, y, sx, sy, id);
      }
    } else if Transition(n.transfers[id].state, Commit).None? {
      NoteGood(n, y, sx, sy, ctx, ErrorReply(BadState));
    } else {
      CommittedAtPeer(n, y, sx, sy, id);
      AcceptedSettles(n, y, sx, sy, id, ctx);
    }
    if !Answered(n, id) {
      NotedGood(n, y, sx, sy, HandleTransferCommit(n, sy[i].body, ctx));
    }
  }

  /** The retry case: the payout happened, and its receipt is given again. */
  predicate Answered(n: NodeState, id: Id) {
    && id in n.transfers && !n.transfers[id].outgoing && OwnsContact(n, n.transfers[id].contactId)
    && (n.transfers[id].state.Settled? || n.transfers[id].state.Committed?)
  }

  lemma ReceiptIsSent(n: NodeState, y: P.Core, sx: Sent, sy: Sent, id: Id)
    requires Good(n, y, sx, sy) && id in n.transfers && n.transfers[id].receipt.Some?
    ensures n.transfers[id].receipt.value in sx
  {
    hide P.Inv, Linked, Kept;
  }

  /** A commit that finds the payee still accepting comes from a payer that is still committed. */
  lemma CommittedAtPeer(n: NodeState, y: P.Core, sx: Sent, sy: Sent, id: Id)
    requires Good(n, y, sx, sy) && id in n.transfers && !n.transfers[id].outgoing && n.transfers[id].state.Accepted?
    requires P.Backs(y, TransferCommit(id))
    ensures y.legs[id].state.Committed?
  {
    hide Kept, Logged, Linked;
    assert P.Outcome(y, CoreOf(n), id);
  }

  lemma AcceptedSettles(n: NodeState, y: P.Core, sx: Sent, sy: Sent, id: Id, ctx: Ctx)
    requires Good(n, y, sx, sy) && n.contact.Some?
    requires id in n.transfers && !n.transfers[id].outgoing && n.transfers[id].state.Accepted?
    requires id in y.legs && y.legs[id].state.Committed?
    ensures var o := SettleIncoming(SetState(n, id, Committed), id, ctx); Good(o.node, y, With(sx, o.out), sy)
  {
    hide Good, SettleIncoming, Appended, C.SettleLeg, Receipted;
    var book := SettleRuns(n, y, sx, sy, id, ctx);
    SettleGood(n, y, sx, sy, ctx, id, book);
    ReceiptGood(SettledNode(n, id, book), y, sx, sy, id, ctx);
  }

  // ----- the payer on a receipt, a rejection or its own abort; the payee on an abort -----

  lemma FinishGood(n: NodeState, y: P.Core, sx: Sent, sy: Sent, i: nat, id: Id)
    requires Good(n, y, sx, sy) && id in n.transfers && n.transfers[id].outgoing && n.transfers[id].state.Committed?
    requires i < n.lastSeq && i < |sy| && sy[i].body == TransferReceipt(id) && P.Backs(y, sy[i].body)
    ensures Good(ReleaseFor(SetState(n, id, Settled), id), y, sx, sy)
  {
    hide P.Inv, Linked, Kept, Logged;
    LiveHolds(n, y, sx, sy, id);
    var n' := ReleaseFor(SetState(n, id, Settled), id);
    FinishIs(n, id);
    SettledThere(n, y, sx, sy, id);
    C.FinishKeeps(CoreOf(n), y, sx, sy, id, i);
    KillLinks(n, id, Settled);
    SameLogged(n, n', sx) by { KillReceipts(n, id, Settled); }
  }

  lemma FinishIs(n: NodeState, id: Id)
    requires id in n.transfers && n.transfers[id].outgoing && n.transfers[id].state.Committed? && Kept(n)
    requires n.contact.Some? && n.contact.value.busyTransfer == Some(id)
    ensures var n' := ReleaseFor(SetState(n, id, Settled), id);
            CoreOf(n') == C.FinishLeg(CoreOf(n), id) && Kept(n')
  {
    hide Kept;
    LegsUpdate(n.transfers, id, n.transfers[id].(state := Settled));
    StateKept(n, ReleaseFor(SetState(n, id, Settled), id), id, Settled);
  }

  lemma SettledThere(n: NodeState, y: P.Core, sx: Sent, sy: Sent, id: Id)
    requires Good(n, y, sx, sy) && P.Backs(y, TransferReceipt(id))
    requires id in n.transfers && n.transfers[id].outgoing && n.transfers[id].state.Committed?
    ensures C.MayFinish(CoreOf(n), y, id)
  {
    hide Good;
    LiveHolds(n, y, sx, sy, id);
  }

  lemma TransferReceiptGood(n: NodeState, y: P.Core, sx: Sent, sy: Sent, i: nat, ctx: Ctx)
    requires Good(n, y, sx, sy) && i < n.lastSeq && i < |sy| && sy[i].body.TransferReceipt? && P.Backs(y, sy[i].body)
    ensures var o := HandleTransferReceipt(n, sy[i].body, ctx); Good(o.node, y, With(sx, o.out), sy)
  {
    hide Good, ReleaseFor, SetState;
    var id := sy[i].body.transferId;
    if id !in n.transfers || !n.transfers[id].outgoing {
      NoteGood(n, y, sx, sy, ctx, ErrorReply(UnknownTransfer));
    } else if !OwnsContact(n, n.transfers[id].contactId) {
      NoteGood(n, y, sx, sy, ctx, ErrorReply(WrongSender));
    } else if n.transfers[id].state.Settled? {
    } else if Transition(n.transfers[id].state, Receipt).None? {
      NoteGood(n, y, sx, sy, ctx, ErrorReply(BadState));
    } else {
      FinishGood(n, y, sx, sy, i, id);
    }
  }

  lemma TransferRejectGood(n: NodeState, y: P.Core, sx: Sent, sy: Sent, i: nat)
    requires Good(n, y, sx, sy) && i < |sy| && sy[i].body.TransferReject?
    requires M.Readable(CoreOf(n), y, sx, sy, i)
    ensures Good(HandleTransferReject(n, sy[i].body).node, y, sx, sy)
    ensures HandleTransferReject(n, sy[i].body).out.None?
  {
    hide Good, ReleaseFor, SetState;
    var id := sy[i].body.transferId;
    if id in n.transfers && n.transfers[id].outgoing && n.transfers[id].state.Proposed? {
      EarlyIsLive(n, y, sx, sy, id);
      KillGood(n, y, sx, sy, id, Rejected);
    }
  }

  lemma TransferAbortGood(n: NodeState, y: P.Core, sx: Sent, sy: Sent, i: nat)
    requires Good(n, y, sx, sy) && i < |sy| && sy[i].body.TransferAbort? && P.Backs(y, sy[i].body)
    ensures Good(HandleTransferAbort(n, sy[i].body).node, y, sx, sy)
    ensures HandleTransferAbort(n, sy[i].body).out.None?
  {
    hide Good, ReleaseFor, SetState;
    var id := sy[i].body.transferId;
    if id in n.transfers && !n.transfers[id].outgoing {
      if n.transfers[id].state.Accepted? || n.transfers[id].state.Proposed? {
        EarlyIsLive(n, y, sx, sy, id);
        KillGood(n, y, sx, sy, id, Aborted);
      }
    }
  }

  lemma AbortTransferGood(n: NodeState, y: P.Core, sx: Sent, sy: Sent, ctx: Ctx, id: Id)
    requires Good(n, y, sx, sy)
    ensures var d := AbortTransfer(n, ctx, id); Good(d.node, y, With(sx, d.out), sy)
  {
    hide Good, ReleaseFor;
    if id in n.transfers && n.transfers[id].outgoing && Transition(n.transfers[id].state, Abort).Some? {
      EarlyIsLive(n, y, sx, sy, id);
      LiveHolds(n, y, sx, sy, id);
      KillGood(n, y, sx, sy, id, Aborted);
      NoteGood(ReleaseFor(SetState(n, id, Aborted), id), y, sx, sy, ctx, TransferAbort(id));
    }
  }
}
