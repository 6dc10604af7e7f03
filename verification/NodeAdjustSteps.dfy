/** Reserve adjustments, closing and the informational messages as protocol moves. */
module NodeAdjustSteps {
  import opened Wrappers
  import opened PoolPricing
  import opened ChannelHistory
  import opened Ledgers
  import opened Supply
  import opened TransferStates
  import opened Messages
  import opened NodeSpec
  import opened NodeInvariant
  import opened NodeRecords
  import opened NodeSteps
  import opened NodeTransferSteps
  import P = ProtocolInvariant
  import M = ProtocolMoves
  import A = ProtocolAdjusts
  import F = ProtocolFunds

  // ----- proposing -----

  function HeldNode(n: NodeState, id: Id, delta: int): NodeState
    requires n.contact.Some?
  {
    n.(contact := Some(LockedBy(n.contact.value, id).(pendingAdjust := Some(id), pendingDelta := delta)))
  }

  lemma HeldIs(n: NodeState, id: Id, delta: int)
    requires Linked(n) && n.contact.Some?
    ensures Linked(HeldNode(n, id, delta))
    ensures CoreOf(HeldNode(n, id, delta)) == A.Hold(CoreOf(n), P.Pending(id, delta))
  {
  }

  lemma HoldGood(n: NodeState, y: P.Core, sx: Sent, sy: Sent, ctx: Ctx, id: Id, delta: int)
    requires Good(n, y, sx, sy) && Fresh(n, y, sx, sy, id)
    requires n.contact.Some? && n.contact.value.active && !n.contact.value.busy
    requires delta != 0 && n.contact.value.myReserveOfPeer + delta >= 0
    ensures var c := n.contact.value;
            var o := Send(HeldNode(n, id, delta), ctx, Body.ReserveAdjust(c.id, c.opSeq, id, delta));
            Good(o.node, y, With(sx, o.out), sy)
  {
    hide P.Inv, Linked, Kept, Logged, M.Unmentioned;
    Idle(n, y, sx, sy);
    HeldIs(n, id, delta);
    HeldKept(n, id, delta);
    var n1 := HeldNode(n, id, delta);
    A.HoldKeeps(CoreOf(n), y, sx, sy, P.Pending(id, delta));
    var c := n.contact.value;
    var o := Send(n1, ctx, Body.ReserveAdjust(c.id, c.opSeq, id, delta));
    A.AdjustKeeps(CoreOf(n1), y, sx, sy, o.out.value);
    SameLogged(n, n1, sx);
    SendLogged(n1, sx, ctx, o.out.value.body);
    SendKeeps(n1, ctx, o.out.value.body);
  }

  lemma HeldKept(n: NodeState, id: Id, delta: int)
    requires Linked(n) && Kept(n) && n.contact.Some? && delta != 0 && n.contact.value.myReserveOfPeer + delta >= 0
    ensures Kept(HeldNode(n, id, delta))
  {
    hide Sound, CountOf, P.Funded, Reserves, Rooted;
    HeldIs(n, id, delta);
    F.HoldFunded(CoreOf(n), P.Pending(id, delta));
    SameMoneyKept(n, HeldNode(n, id, delta));
  }

  lemma AdjustReserveGood(n: NodeState, y: P.Core, sx: Sent, sy: Sent, ctx: Ctx, delta: int, id: Id)
    requires Good(n, y, sx, sy) && Fresh(n, y, sx, sy, id)
    ensures var d := AdjustReserve(n, ctx, delta, id); Good(d.node, y, With(sx, d.out), sy)
  {
    hide Good, Fresh, ReleaseIfBusyExpired;
    var n1 := ReleaseIfBusyExpired(n, ctx.now);
    ReleaseGood(n, y, sx, sy, ctx.now);
    FreshAfterRelease(n, y, sx, sy, id, ctx.now);
    Unreleased(n, ctx.now);
    if AdjustReserve(n, ctx, delta, id).out.Some? {
      HoldGood(n1, y, sx, sy, ctx, id, delta);
    }
  }

  // ----- answering -----

  function Mirrors(c: Contact, id: Id, delta: int): Contact {
    ApplyAdjust(c.(peerReserveOfMe := c.peerReserveOfMe + delta), id, delta, !c.iAmProposer)
  }

  function MirroredNode(n: NodeState, id: Id, delta: int): NodeState
    requires n.contact.Some?
  {
    var c' := Mirrors(n.contact.value, id, delta);
    n.(contact := Some(c'.(appliedAdjusts := c'.appliedAdjusts + {id})))
  }

  lemma MirrorsOk(c: Contact, id: Id, delta: int)
    requires ContactOk(c) && c.history != []
    ensures ContactOk(Mirrors(c, id, delta))
    ensures Mirrors(c, id, delta).history == c.history + [Adjusted(id, !c.iAmProposer, delta)]
  {
    hide RootOf, ChannelNext, Reserves, Padded;
    AdjustRooted(c.(peerReserveOfMe := c.peerReserveOfMe + delta), id, delta, !c.iAmProposer);
    ReservesAppend(c.history, Adjusted(id, !c.iAmProposer, delta));
  }

  lemma MirroredLinks(n: NodeState, id: Id, delta: int)
    requires Linked(n) && n.contact.Some? && n.contact.value.history != []
    ensures Linked(MirroredNode(n, id, delta))
    ensures CoreOf(MirroredNode(n, id, delta)) == A.ApplyAdjust(CoreOf(n), P.Pending(id, delta))
  {
    MirrorsOk(n.contact.value, id, delta);
    hide Reserved;
  }

  /** Both contacts stand at the same operation, on opposite sides. */
  lemma EvenHistories(n: NodeState, y: P.Core, sx: Sent, sy: Sent)
    requires Good(n, y, sx, sy) && CoreOf(n).hist != [] && |CoreOf(n).hist| == |y.hist|
    ensures CoreOf(n).hist == y.hist && y.terms.Some? && CoreOf(n).terms.Some?
    ensures CoreOf(n).terms.value.proposer != y.terms.value.proposer
  {
    hide Linked, Kept, Logged;
  }

  lemma MirroredKept(n: NodeState, id: Id, delta: int)
    requires Linked(n) && Kept(n) && P.Local(CoreOf(n)) && n.contact.Some? && n.contact.value.history != []
    requires CoreOf(n).pending.None? && delta != 0 && n.contact.value.peerReserveOfMe + delta >= 0
    ensures Kept(MirroredNode(n, id, delta))
  {
    hide Sound, CountOf, P.Funded, Reserves, Rooted, P.Local, MirroredNode;
    MirroredLinks(n, id, delta);
    F.ApplyFunded(CoreOf(n), P.Pending(id, delta));
    MirroredRest(n, id, delta);
    SameMoneyKept(n, MirroredNode(n, id, delta));
  }

  lemma MirroredRest(n: NodeState, id: Id, delta: int)
    requires n.contact.Some?
    ensures var n' := MirroredNode(n, id, delta);
            && n'.book == n.book && n'.peerHost == n.peerHost && n'.transfers == n.transfers && n'.contact.Some?
            && n'.contact.value.myReserveOfPeer == n.contact.value.myReserveOfPeer
            && n'.outSeq == n.outSeq && n'.replies == n.replies && n'.lastSeq == n.lastSeq
  {
  }

  lemma MirrorGood(n: NodeState, y: P.Core, sx: Sent, sy: Sent, i: nat, ctx: Ctx)
    requires Good(n, y, sx, sy) && i < |sy| && sy[i].body.ReserveAdjust? && n.lastSeq == i + 1
    requires M.Readable(CoreOf(n), y, sx, sy, i)
    requires n.contact.Some? && n.contact.value.active && !n.contact.value.busy
    requires sy[i].body.opSeq == n.contact.value.opSeq && sy[i].body.myDelta != 0
    requires n.contact.value.peerReserveOfMe + sy[i].body.myDelta >= 0
    ensures var b := sy[i].body;
            var o := Send(MirroredNode(n, b.adjustId, b.myDelta), ctx, ReserveAccept(n.contact.value.id, b.adjustId));
            Good(o.node, y, With(sx, o.out), sy)
  {
    hide P.Inv, Linked, Kept, Logged, P.Local, MirroredNode;
    var b := sy[i].body;
    Idle(n, y, sx, sy);
    EvenHistories(n, y, sx, sy);
    MirroredLinks(n, b.adjustId, b.myDelta);
    IsLocal(n, y, sx, sy);
    MirroredKept(n, b.adjustId, b.myDelta);
    MirroredRest(n, b.adjustId, b.myDelta);
    var n1 := MirroredNode(n, b.adjustId, b.myDelta);
    A.ApplyKeeps(CoreOf(n), y, sx, sy, P.Pending(b.adjustId, b.myDelta));
    var o := Send(n1, ctx, ReserveAccept(n.contact.value.id, b.adjustId));
    A.AcknowledgeKeeps(CoreOf(n1), y, sx, sy, o.out.value);
    SameLogged(n, n1, sx);
    SendLogged(n1, sx, ctx, o.out.value.body);
    SendKeeps(n1, ctx, o.out.value.body);
  }

  lemma ReackGood(n: NodeState, y: P.Core, sx: Sent, sy: Sent, ctx: Ctx, id: Id)
    requires Good(n, y, sx, sy) && n.contact.Some? && n.contact.value.active && !n.contact.value.busy
    requires id in n.contact.value.appliedAdjusts
    ensures var o := Send(n, ctx, ReserveAccept(n.contact.value.id, id)); Good(o.node, y, With(sx, o.out), sy)
  {
    hide P.Inv, Linked, Kept, Logged;
    Idle(n, y, sx, sy);
    var b := ReserveAccept(n.contact.value.id, id);
    SendKeeps(n, ctx, b);
    A.AcknowledgeKeeps(CoreOf(n), y, sx, sy, Send(n, ctx, b).out.value);
    SendLogged(n, sx, ctx, b);
  }

  lemma ReserveAdjustGood(n: NodeState, y: P.Core, sx: Sent, sy: Sent, i: nat, ctx: Ctx)
    requires Good(n, y, sx, sy) && i < |sy| && sy[i].body.ReserveAdjust? && n.lastSeq == i + 1
    requires M.Readable(CoreOf(n), y, sx, sy, i)
    ensures var o := HandleReserveAdjust(n, sy[i].body, ctx); Good(o.node, y, With(sx, o.out), sy)
  {
    hide Good, ReleaseIfBusyExpired, M.Readable, ApplyAdjust, CoreOf;
    var b := sy[i].body;
    if n.contact.None? || !n.contact.value.active || n.contact.value.closed {
      NoteGood(n, y, sx, sy, ctx, ErrorReply(NoContact));
    } else if n.contact.value.diverged {
      NoteGood(n, y, sx, sy, ctx, ErrorReply(ContactFrozen));
    } else {
      var n1 := ReleaseIfBusyExpired(n, ctx.now);
      ReleaseGood(n, y, sx, sy, ctx.now);
      Unreleased(n, ctx.now);
      ReadableAfterRelease(n, y, sx, sy, i, ctx.now);
      if n1.contact.value.busy {
        NoteGood(n1, y, sx, sy, ctx, ErrorReply(ContactBusy));
      } else if b.opSeq != n1.contact.value.opSeq {
        NoteGood(n1, y, sx, sy, ctx, ErrorReply(StaleOp));
      } else if b.myDelta == 0 {
        NoteGood(n1, y, sx, sy, ctx, ErrorReply(InvalidPayload));
      } else if b.adjustId in n1.contact.value.appliedAdjusts {
        ReackGood(n1, y, sx, sy, ctx, b.adjustId);
      } else if n1.contact.value.peerReserveOfMe + b.myDelta < 0 {
        NoteGood(n1, y, sx, sy, ctx, ErrorReply(InsufficientReserve));
      } else {
        MirrorGood(n1, y, sx, sy, i, ctx);
      }
    }
  }

  // ----- booking -----

  function BookedContact(c: Contact, id: Id): Contact {
    ApplyAdjust(c.(myReserveOfPeer := c.myReserveOfPeer + c.pendingDelta), id, c.pendingDelta, c.iAmProposer)
  }

  function BookedNode(n: NodeState, id: Id, book: Book): NodeState
    requires n.contact.Some?
  {
    n.(book := book, contact := Some(Unlocked(BookedContact(n.contact.value, id)).(pendingAdjust := None,
                                                                                   pendingDelta := 0)))
  }

  function AdjustTx(n: NodeState, ctx: Ctx, id: Id, delta: int): Tx {
    TwoLegs(ctx, TxType.ReserveAdjust, Some(id), Wallet(n), delta, Treasury, -delta)
  }

  lemma BookedContactOk(c: Contact, id: Id)
    requires ContactOk(c) && c.history != []
    ensures ContactOk(BookedContact(c, id)) && ContactOk(Unlocked(BookedContact(c, id)))
    ensures BookedContact(c, id).history == c.history + [Adjusted(id, c.iAmProposer, c.pendingDelta)]
  {
    hide RootOf, ChannelNext, Reserves, Padded;
    AdjustRooted(c.(myReserveOfPeer := c.myReserveOfPeer + c.pendingDelta), id, c.pendingDelta, c.iAmProposer);
    ReservesAppend(c.history, Adjusted(id, c.iAmProposer, c.pendingDelta));
  }

  lemma BookedLinks(n: NodeState, id: Id, book: Book)
    requires Linked(n) && n.contact.Some? && n.contact.value.history != [] && n.contact.value.pendingAdjust == Some(id)
    ensures Linked(BookedNode(n, id, book))
    ensures CoreOf(BookedNode(n, id, book)) == A.BookAdjust(CoreOf(n), P.Pending(id, n.contact.value.pendingDelta))
  {
    BookedContactOk(n.contact.value, id);
    hide ContactOk;
  }

  lemma PendingIsOpen(n: NodeState, y: P.Core, sx: Sent, sy: Sent)
    requires Good(n, y, sx, sy) && n.contact.Some? && n.contact.value.pendingAdjust.Some?
    ensures n.contact.value.history != []
  {
    hide Kept, Logged;
    assert P.Opened(CoreOf(n));
  }

  lemma AdjustBookedKept(n: NodeState, ctx: Ctx, id: Id, book: Book)
    requires Linked(n) && Kept(n) && P.Local(CoreOf(n)) && n.contact.Some? && n.contact.value.history != []
    requires n.contact.value.pendingAdjust == Some(id)
    requires Appended(n.book, AdjustTx(n, ctx, id, n.contact.value.pendingDelta)) == Success(book)
    ensures Kept(BookedNode(n, id, book))
  {
    hide Sound, CountOf, P.Funded, Reserves, Linked, P.Local, Appended, BookedNode;
    var c := n.contact.value;
    BookedLinks(n, id, book);
    F.BookFunded(CoreOf(n), P.Pending(id, c.pendingDelta));
    TwoLegsExtends(n.book, ctx, TxType.ReserveAdjust, Some(id), Wallet(n), c.pendingDelta, Treasury, book);
    BookedRest(n, id, book);
    PendingMoves(n);
    TwoLegsIssue(ctx, TxType.ReserveAdjust, Some(id), Wallet(n), c.pendingDelta, Treasury);
    BookedKept(n, BookedNode(n, id, book), AdjustTx(n, ctx, id, c.pendingDelta));
  }

  lemma PendingMoves(n: NodeState)
    requires Kept(n) && n.contact.Some? && n.contact.value.pendingAdjust.Some?
    ensures n.contact.value.pendingDelta != 0
  {
    hide Sound, CountOf, P.Priced, P.Charged, Reserves;
  }

  lemma BookedRest(n: NodeState, id: Id, book: Book)
    requires n.contact.Some?
    ensures var n' := BookedNode(n, id, book);
            && n'.book == book && n'.peerHost == n.peerHost && n'.transfers == n.transfers && n'.contact.Some?
            && n'.contact.value.myReserveOfPeer == n.contact.value.myReserveOfPeer + n.contact.value.pendingDelta
            && n'.outSeq == n.outSeq && n'.replies == n.replies && n'.lastSeq == n.lastSeq
  {
  }

  lemma BookGood(n: NodeState, y: P.Core, sx: Sent, sy: Sent, i: nat, ctx: Ctx, book: Book)
    requires Good(n, y, sx, sy) && i < n.lastSeq && i < |sy| && sy[i].body.ReserveAccept? && P.Backs(y, sy[i].body)
    requires n.contact.Some? && n.contact.value.pendingAdjust == Some(sy[i].body.adjustId)
    requires Appended(n.book, AdjustTx(n, ctx, sy[i].body.adjustId, n.contact.value.pendingDelta)) == Success(book)
    ensures Good(BookedNode(n, sy[i].body.adjustId, book), y, sx, sy)
  {
    hide P.Inv, Linked, Kept, Logged, P.Local, Appended, BookedNode;
    var id := sy[i].body.adjustId;
    PendingIsOpen(n, y, sx, sy);
    BookedLinks(n, id, book);
    A.BookKeeps(CoreOf(n), y, sx, sy, P.Pending(id, n.contact.value.pendingDelta), i, sy[i].body.contactId);
    IsLocal(n, y, sx, sy);
    AdjustBookedKept(n, ctx, id, book);
    BookedRest(n, id, book);
    SameLogged(n, BookedNode(n, id, book), sx);
  }

  /** The proposer's booking of an accepted adjustment is never refused by the ledger. */
  lemma AdjustBooked(n: NodeState, y: P.Core, sx: Sent, sy: Sent, ctx: Ctx, id: Id)
    requires Good(n, y, sx, sy) && n.contact.Some? && n.contact.value.pendingAdjust == Some(id)
    ensures Appended(n.book, AdjustTx(n, ctx, id, n.contact.value.pendingDelta)).Success?
  {
    hide Good, Appended;
    var c := n.contact.value;
    PendingCovered(n, y, sx, sy);
    TwoLegsBooked(n.book, ctx, TxType.ReserveAdjust, Some(id), Wallet(n), c.pendingDelta, Treasury);
  }

  lemma PendingCovered(n: NodeState, y: P.Core, sx: Sent, sy: Sent)
    requires Good(n, y, sx, sy) && n.contact.Some? && n.contact.value.pendingAdjust.Some?
    ensures Get(n.book.balances, Wallet(n)) + n.contact.value.pendingDelta >= 0
  {
    hide Rooted, P.Priced, Reserves, P.Inv, Sound, CountOf, Logged;
  }

  lemma ReserveAcceptGood(n: NodeState, y: P.Core, sx: Sent, sy: Sent, i: nat, ctx: Ctx)
    requires Good(n, y, sx, sy) && i < n.lastSeq && i < |sy| && sy[i].body.ReserveAccept?
    requires P.Backs(y, sy[i].body)
    ensures var o := HandleReserveAccept(n, sy[i].body, ctx); Good(o.node, y, With(sx, o.out), sy)
  {
    hide Good, Appended, ApplyAdjust;
    var id := sy[i].body.adjustId;
    if n.contact.None? {
      NoteGood(n, y, sx, sy, ctx, ErrorReply(NoContact));
    } else if n.contact.value.pendingAdjust == Some(id) {
      AdjustBooked(n, y, sx, sy, ctx, id);
      BookGood(n, y, sx, sy, i, ctx, Appended(n.book, AdjustTx(n, ctx, id, n.contact.value.pendingDelta)).value);
    }
  }

  // ----- closing, freezing and plain notes -----

  /** Fields the protocol state does not show: closing or freezing a contact. */
  lemma MarkedGood(n: NodeState, y: P.Core, sx: Sent, sy: Sent, closed: bool, diverged: bool)
    requires Good(n, y, sx, sy) && n.contact.Some?
    ensures Good(n.(contact := Some(n.contact.value.(closed := closed, diverged := diverged))), y, sx, sy)
  {
    hide P.Inv, Kept, Logged;
    var n' := n.(contact := Some(n.contact.value.(closed := closed, diverged := diverged)));
    assert CoreOf(n') == CoreOf(n);
    MarkedKept(n, n');
    SameLogged(n, n', sx);
  }

  lemma MarkedKept(n: NodeState, n': NodeState)
    requires Kept(n) && CoreOf(n') == CoreOf(n) && n'.book == n.book && n'.peerHost == n.peerHost
    requires n'.transfers == n.transfers && Owed(n') == Owed(n)
    ensures Kept(n')
  {
    hide Sound, CountOf, P.Funded, CoreOf;
    SameMoneyKept(n, n');
  }

  lemma CloseContactGood(n: NodeState, y: P.Core, sx: Sent, sy: Sent, ctx: Ctx)
    requires Good(n, y, sx, sy)
    ensures var d := CloseContact(n, ctx); Good(d.node, y, With(sx, d.out), sy)
  {
    hide Good;
    if n.contact.Some? {
      MarkedGood(n, y, sx, sy, true, n.contact.value.diverged);
      NoteGood(n.(contact := Some(n.contact.value.(closed := true))), y, sx, sy, ctx, ContactClose(n.contact.value.id));
    }
  }

  lemma ReconcileGood(n: NodeState, y: P.Core, sx: Sent, sy: Sent, cp: Checkpoint)
    requires Good(n, y, sx, sy)
    ensures Good(Reconcile(n, cp), y, sx, sy)
  {
    hide Good;
    if Freezes(n, cp) {
      MarkedGood(n, y, sx, sy, n.contact.value.closed, true);
    }
  }
}
