/** Opening a contact, on both sides, as protocol moves. */
module NodeOpenSteps {
  import opened Wrappers
  import opened ChannelHistory
  import opened Ledgers
  import opened Supply
  import opened Messages
  import opened NodeSpec
  import opened NodeInvariant
  import opened NodeRecords
  import opened NodeSteps
  import P = ProtocolInvariant
  import A = ProtocolAdjusts
  import F = ProtocolFunds

  lemma Unopened(n: NodeState)
    requires Linked(n) && n.contact.None?
    ensures n.transfers == map[]
  {
  }

  // ----- proposing -----

  function OpenedNode(n: NodeState, id: Id, seed: int): NodeState {
    n.(contact := Some(FreshContact(id, true, seed, 0)))
  }

  lemma OpenedIs(n: NodeState, id: Id, seed: int)
    requires Linked(n) && Kept(n) && n.contact.None?
    ensures Linked(OpenedNode(n, id, seed)) && Kept(OpenedNode(n, id, seed))
    ensures CoreOf(OpenedNode(n, id, seed)) == A.Open(CoreOf(n), id, seed)
  {
    hide Sound, CountOf;
    var n' := OpenedNode(n, id, seed);
    assert Reserves([]).proposerSide == 0 && Reserves([]).responderSide == 0;
    SameMoneyKept(n, n');
  }

  lemma OpenContactGood(n: NodeState, y: P.Core, sx: Sent, sy: Sent, ctx: Ctx, seed: int, id: Id)
    requires Good(n, y, sx, sy)
    ensures var d := OpenContact(n, ctx, seed, id); Good(d.node, y, With(sx, d.out), sy)
  {
    hide P.Inv, Linked, Kept, Logged;
    if seed > 0 && n.contact.None? {
      OpenedIs(n, id, seed);
      A.OpenKeeps(CoreOf(n), y, sx, sy, id, seed);
      var n' := OpenedNode(n, id, seed);
      SameLogged(n, n', sx);
      assert Good(n', y, sx, sy);
      NoteGood(n', y, sx, sy, ctx, ContactPropose(id, seed));
    }
  }

  // ----- the seeded contact -----

  lemma SeededContactOk(c: Contact)
    requires |c.roots| <= 1 && !c.busy && c.busyTransfer.None?
    requires c.myReserveOfPeer == (if c.iAmProposer then c.proposerSeed else c.responderSeed)
    requires c.peerReserveOfMe == (if c.iAmProposer then c.responderSeed else c.proposerSeed)
    ensures ContactOk(ApplySeed(c).(active := true))
    ensures ApplySeed(c).history == [Seeded(c.id, c.proposerSeed, c.responderSeed)]
  {
    SeedRooted(c);
    var op := Seeded(c.id, c.proposerSeed, c.responderSeed);
    ReservesAppend([], op);
    assert [] + [op] == [op];
    hide RootOf, ChannelNext;
  }

  /** Booking the seed into a wallet that was empty. */
  lemma SeededKept(n: NodeState, n': NodeState, ctx: Ctx, amount: int)
    requires Kept(n) && SeedLeg(n, ctx, amount) == Success(n'.book) && Get(n.book.balances, Wallet(n)) == 0
             && amount > 0
    requires n'.peerHost == n.peerHost && n'.transfers == n.transfers
    requires n'.contact.Some? && n'.contact.value.myReserveOfPeer == amount && P.Funded(CoreOf(n'))
    ensures Kept(n')
  {
    hide P.Funded, CoreOf, Sound, CountOf, Appended;
    TwoLegsExtends(n.book, ctx, ContactSeed, None, Wallet(n), amount, Issuance, n'.book);
    TwoLegsIssue(ctx, ContactSeed, None, Wallet(n), amount, Issuance);
    BookedKept(n, n', TwoLegs(ctx, ContactSeed, None, Wallet(n), amount, Issuance, -amount));
  }

  // ----- responding -----

  function Responder(b: Body, autoSeed: int): Contact
    requires b.ContactPropose?
  {
    FreshContact(b.contactId, false, b.mySeed, autoSeed).(myReserveOfPeer := autoSeed, peerReserveOfMe := b.mySeed)
  }

  function RespondedNode(n: NodeState, b: Body, autoSeed: int, book: Book): NodeState
    requires b.ContactPropose?
  {
    n.(book := book, contact := Some(ApplySeed(Responder(b, autoSeed)).(active := true)))
  }

  lemma RespondedIs(n: NodeState, b: Body, autoSeed: int, book: Book)
    requires Linked(n) && n.contact.None? && b.ContactPropose?
    ensures Linked(RespondedNode(n, b, autoSeed, book))
    ensures CoreOf(n).legs == map[] && CoreOf(n).terms.None?
    ensures CoreOf(RespondedNode(n, b, autoSeed, book)) == A.Respond(CoreOf(n), b.contactId, b.mySeed, autoSeed)
  {
    SeededContactOk(Responder(b, autoSeed));
    hide ContactOk;
    Unopened(n);
  }

  lemma RespondedKept(n: NodeState, b: Body, ctx: Ctx, autoSeed: int, book: Book)
    requires Linked(n) && Kept(n) && n.contact.None? && b.ContactPropose? && autoSeed > 0 && b.mySeed > 0
    requires SeedLeg(n, ctx, autoSeed) == Success(book)
    ensures Kept(RespondedNode(n, b, autoSeed, book))
  {
    hide Sound, CountOf, Appended, P.Funded, Linked;
    RespondedIs(n, b, autoSeed, book);
    var n' := RespondedNode(n, b, autoSeed, book);
    F.SeededFunded(CoreOf(n'), Seeded(b.contactId, b.mySeed, autoSeed));
    SeededKept(n, n', ctx, autoSeed);
  }

  lemma RespondGood(n: NodeState, y: P.Core, sx: Sent, sy: Sent, ctx: Ctx, b: Body, autoSeed: int, book: Book)
    requires Good(n, y, sx, sy) && b.ContactPropose? && P.Backs(y, b)
    requires autoSeed > 0 && b.mySeed > 0 && n.contact.None? && SeedLeg(n, ctx, autoSeed) == Success(book)
    ensures var o := Send(RespondedNode(n, b, autoSeed, book), ctx, ContactAccept(b.contactId, autoSeed));
            Good(o.node, y, With(sx, o.out), sy)
  {
    hide P.Inv, Linked, Kept, Logged, SeedLeg, RespondedNode;
    RespondedIs(n, b, autoSeed, book);
    RespondedKept(n, b, ctx, autoSeed, book);
    A.RespondKeeps(CoreOf(n), y, sx, sy, b.contactId, b.mySeed, autoSeed);
    var n' := RespondedNode(n, b, autoSeed, book);
    RespondedRest(n, b, autoSeed, book);
    SameLogged(n, n', sx);
    NoteGood(n', y, sx, sy, ctx, ContactAccept(b.contactId, autoSeed));
  }

  lemma RespondedRest(n: NodeState, b: Body, autoSeed: int, book: Book)
    requires b.ContactPropose?
    ensures var n' := RespondedNode(n, b, autoSeed, book);
            n'.outSeq == n.outSeq && n'.replies == n.replies && n'.transfers == n.transfers && n'.lastSeq == n.lastSeq
  {
  }

  lemma ContactProposeGood(n: NodeState, y: P.Core, sx: Sent, sy: Sent, i: nat, ctx: Ctx, autoSeed: int)
    requires Good(n, y, sx, sy) && i < |sy| && sy[i].body.ContactPropose? && P.Backs(y, sy[i].body)
    ensures var o := HandleContactPropose(n, sy[i].body, ctx, autoSeed); Good(o.node, y, With(sx, o.out), sy)
  {
    hide Good, SeedLeg, ApplySeed;
    var b := sy[i].body;
    if autoSeed <= 0 {
      NoteGood(n, y, sx, sy, ctx, ErrorReply(Refused));
    } else if b.mySeed <= 0 {
      NoteGood(n, y, sx, sy, ctx, ErrorReply(InvalidPayload));
    } else if n.contact.Some? {
      NoteGood(n, y, sx, sy, ctx, ErrorReply(DuplicateContact));
    } else if SeedLeg(n, ctx, autoSeed).Failure? {
      NoteGood(n, y, sx, sy, ctx, ErrorReply(Internal));
    } else {
      RespondGood(n, y, sx, sy, ctx, b, autoSeed, SeedLeg(n, ctx, autoSeed).value);
    }
  }

  // ----- activating -----

  function Seeding(c: Contact, seed: int): Contact {
    c.(responderSeed := seed, myReserveOfPeer := c.proposerSeed, peerReserveOfMe := seed)
  }

  function ActivatedNode(n: NodeState, seed: int, book: Book): NodeState
    requires n.contact.Some?
  {
    n.(book := book, contact := Some(ApplySeed(Seeding(n.contact.value, seed)).(active := true)))
  }

  /** A contact this node proposed and that no answer has activated yet. */
  predicate AwaitsSeed(n: NodeState) { n.contact.Some? && n.contact.value.iAmProposer && !n.contact.value.active }

  /** A contact awaiting the responder's seed has neither locks nor transfers, and holds nothing. */
  lemma AwaitingIsEmpty(n: NodeState, y: P.Core, sx: Sent, sy: Sent)
    requires Good(n, y, sx, sy) && AwaitsSeed(n)
    ensures var x := CoreOf(n); x.hist == [] && x.legs == map[] && x.pending.None? && x.lock.None?
    ensures var c := n.contact.value; |c.roots| <= 1 && !c.busy && c.busyTransfer.None? && c.proposerSeed > 0
    ensures Get(n.book.balances, Wallet(n)) == 0
  {
    hide Logged, Sound, CountOf, P.Funded;
    assert P.Opened(CoreOf(n));
  }

  lemma ActivatedIs(n: NodeState, seed: int, book: Book)
    requires Linked(n) && AwaitsSeed(n) && |n.contact.value.roots| <= 1 && !n.contact.value.busy
    requires n.contact.value.busyTransfer.None?
    ensures Linked(ActivatedNode(n, seed, book))
    ensures CoreOf(ActivatedNode(n, seed, book)) == A.Activate(CoreOf(n), seed)
  {
    SeededContactOk(Seeding(n.contact.value, seed));
    hide ContactOk;
  }

  lemma ActivateGood(n: NodeState, y: P.Core, sx: Sent, sy: Sent, ctx: Ctx, b: Body, book: Book)
    requires Good(n, y, sx, sy) && b.ContactAccept? && P.Backs(y, b) && b.mySeed > 0
    requires AwaitsSeed(n) && n.contact.value.id == b.contactId
    requires SeedLeg(n, ctx, n.contact.value.proposerSeed) == Success(book)
    ensures Good(ActivatedNode(n, b.mySeed, book), y, sx, sy)
  {
    hide P.Inv, Linked, Kept, Logged, SeedLeg, ApplySeed;
    AwaitingIsEmpty(n, y, sx, sy);
    ActivatedIs(n, b.mySeed, book);
    A.ActivateKeeps(CoreOf(n), y, sx, sy, b.mySeed);
    var n' := ActivatedNode(n, b.mySeed, book);
    ActivatedKept(n, ctx, b.mySeed, book);
    SameLogged(n, n', sx);
  }

  lemma ActivatedKept(n: NodeState, ctx: Ctx, seed: int, book: Book)
    requires Linked(n) && Kept(n) && AwaitsSeed(n) && CoreOf(n).legs == map[] && CoreOf(n).pending.None?
    requires var c := n.contact.value; |c.roots| <= 1 && !c.busy && c.busyTransfer.None? && c.proposerSeed > 0
    requires Get(n.book.balances, Wallet(n)) == 0 && seed > 0
    requires SeedLeg(n, ctx, n.contact.value.proposerSeed) == Success(book)
    ensures Kept(ActivatedNode(n, seed, book))
  {
    hide Sound, CountOf, Appended, P.Funded, Linked, Kept;
    ActivatedIs(n, seed, book);
    var n' := ActivatedNode(n, seed, book);
    var c := n.contact.value;
    F.SeededFunded(CoreOf(n'), Seeded(c.id, c.proposerSeed, seed));
    SeededKept(n, n', ctx, c.proposerSeed);
  }

  lemma SeedBooked(n: NodeState, y: P.Core, sx: Sent, sy: Sent, ctx: Ctx)
    requires Good(n, y, sx, sy) && AwaitsSeed(n)
    ensures SeedLeg(n, ctx, n.contact.value.proposerSeed).Success?
  {
    hide Good, Appended;
    AwaitingIsEmpty(n, y, sx, sy);
    TwoLegsBooked(n.book, ctx, ContactSeed, None, Wallet(n), n.contact.value.proposerSeed, Issuance);
  }

  lemma ContactAcceptGood(n: NodeState, y: P.Core, sx: Sent, sy: Sent, i: nat, ctx: Ctx)
    requires Good(n, y, sx, sy) && i < |sy| && sy[i].body.ContactAccept? && P.Backs(y, sy[i].body)
    ensures var o := HandleContactAccept(n, sy[i].body, ctx); Good(o.node, y, With(sx, o.out), sy)
  {
    hide Good, ApplySeed, SeedLeg;
    var b := sy[i].body;
    if !OwnsContact(n, b.contactId) || !n.contact.value.iAmProposer {
      NoteGood(n, y, sx, sy, ctx, ErrorReply(NoContact));
    } else if n.contact.value.active {
    } else if b.mySeed <= 0 {
      NoteGood(n, y, sx, sy, ctx, ErrorReply(InvalidPayload));
    } else {
      SeedBooked(n, y, sx, sy, ctx);
      ActivateGood(n, y, sx, sy, ctx, b, SeedLeg(n, ctx, n.contact.value.proposerSeed).value);
    }
  }
}
