/** Concrete runs, step by step: a payment whose payee expires, one whose commit is overtaken,
    honest peers frozen by a restart or by an early checkpoint, adjustments and openings that
    cross.  What the theorems leave open does happen. */
module SystemExamples {
  import opened Wrappers
  import opened PoolPricing
  import opened ChannelHistory
  import opened Ledgers
  import opened Supply
  import opened TransferStates
  import opened Messages
  import opened NodeSpec
  import opened NodeInvariant
  import opened NodeSteps
  import opened Systems
  import opened SystemInvariant
  import opened SystemRuns
  import opened SystemSafety
  import opened SystemPromises
  import opened SystemTheorems
  import opened NodeGrowth
  import opened NodeFrames
  import opened NodeTriggers
  import opened SystemTurns
  import opened SystemRetries
  import opened SystemDeadlocks
  import opened SystemFutures
  import M = ProtocolMoves

  const CONTACT := Uuid("contact")
  const PAYMENT := Uuid("payment")

  function At(now: int, n: string): Ctx { Ctx(now, Uuid(n), Uuid(n + "-tx")) }

  function Blank(peer: string): NodeState { NodeState(peer, None, map[], EMPTY_BOOK, {}, 0, 0, {}, map[]) }

  function New(peer: string): Side { Side(Blank(peer), Blank(peer), [], []) }

  // The payer's side after each of its steps, and the payee's.
  function A0(): Side { New("payee") }
  function B0(): Side { New("payer") }

  const OPEN := Open(At(0, "1"), 1000, CONTACT)
  function A1(): Side { Step(A0(), B0(), OPEN) }

  const RESPOND := Receive(0, At(1, "2"), 1000)
  function B1(): Side { Step(B0(), A1(), RESPOND) }

  const ACTIVATE := Receive(0, At(2, "3"), 0)
  function A2(): Side { Step(A1(), B1(), ACTIVATE) }

  /** A new contact with nothing under way, at operation 0 of two equal seeds. */
  predicate Idle(n: NodeState, proposer: bool) {
    && n.contact.Some? && n.transfers == map[]
    && var c := n.contact.value;
       && c.id == CONTACT && c.iAmProposer == proposer && c.active && !c.closed && !c.diverged && !c.busy
       && c.busyTransfer.None? && c.pendingAdjust.None? && c.opSeq == 0 && c.appliedAdjusts == {}
       && c.myReserveOfPeer == 1000 && c.peerReserveOfMe == 1000
  }

  lemma Opened()
    ensures A1().mem.contact == Some(FreshContact(CONTACT, true, 1000, 0)) && A1().disk == A1().mem
    ensures A1().mem.(contact := None, outSeq := 0) == Blank("payee") && A1().mem.outSeq == 1 && A1().posted == []
    ensures A1().sent == [Envelope(Uuid("1"), 1, 0, ContactPropose(CONTACT, 1000))]
  {
  }

  lemma SeedFits(n: NodeState, ctx: Ctx)
    requires n.book == EMPTY_BOOK
    ensures SeedLeg(n, ctx, 1000).Success?
    ensures var b := SeedLeg(n, ctx, 1000).value;
            Get(b.balances, Wallet(n)) == 1000 && forall name :: Get(b.balances, Member(name)) == 0
  {
    TwoLegsBooked(n.book, ctx, ContactSeed, None, Wallet(n), 1000, Issuance);
    var tx := TwoLegs(ctx, ContactSeed, None, Wallet(n), 1000, Issuance, -1000);
    TwoLegsAmounts(tx.entries[0], tx.entries[1]);
    PostGet(n.book.balances, tx.entries, Wallet(n));
    forall name ensures Get(Ledgers.Post(n.book.balances, tx.entries), Member(name)) == 0 {
      PostGet(n.book.balances, tx.entries, Member(name));
    }
  }

  lemma SeedFields(c: Contact)
    ensures ApplySeed(c).opSeq == 0
    ensures ApplySeed(c).(root := c.root, opSeq := c.opSeq, history := c.history, roots := c.roots) == c
    ensures |ApplySeed(c).history| == 1
  {
    hide ChannelNext;
  }

  lemma Responded()
    ensures Idle(B1().mem, false) && B1().disk == B1().mem && B1().posted == []
    ensures B1().mem.outSeq == 1 && B1().mem.lastSeq == 1 && B1().mem.seen == {Uuid("1")}
    ensures B1().sent == [Envelope(Uuid("2"), 1, 1, ContactAccept(CONTACT, 1000))]
  {
    hide A1, SeedLeg, ApplySeed;
    Opened();
    SeedFits(B0().mem, At(1, "2"));
    SeedFields(FreshContact(CONTACT, false, 1000, 1000).(myReserveOfPeer := 1000, peerReserveOfMe := 1000));
  }

  /** What the payer's ledger holds: its seed for the peer, and x's money. */
  predicate Funded(n: NodeState, x: int) {
    n.peerHost == "payee" && Get(n.book.balances, Wallet(n)) == 1000 && Get(n.book.balances, Member("x")) == x
  }

  lemma Activated()
    ensures Idle(A2().mem, true) && A2().disk == A2().mem && A2().posted == []
    ensures A2().mem.outSeq == 1 && A2().mem.lastSeq == 1 && A2().mem.seen == {Uuid("2")} && A2().sent == A1().sent
    ensures Funded(A2().mem, 0)
  {
    hide A1, B1, SeedLeg, ApplySeed;
    Opened();
    Responded();
    SeedFits(A1().mem, At(2, "3"));
    SeedFields(FreshContact(CONTACT, true, 1000, 1000).(myReserveOfPeer := 1000, peerReserveOfMe := 1000));
  }

  // The payer joins with some money, and the payee's member joins.
  const GRANT := Tx(Uuid("grant"), IssuanceGrant, None, 3, [Entry(Member("x"), 100), Entry(Issuance, -100)])
  function A3(): Side { Step(A2(), B1(), SetMembers({"x"})) }
  function A4(): Side { Step(A3(), B1(), Local(GRANT)) }
  function B2(): Side { Step(B1(), A4(), SetMembers({"y"})) }

  lemma Grants(n: NodeState)
    requires Funded(n, 0)
    ensures OwnTx(n, GRANT) && Appended(n.book, GRANT).Success?
    ensures Funded(n.(book := Appended(n.book, GRANT).value), 100)
  {
    TwoLegsAmounts(GRANT.entries[0], GRANT.entries[1]);
    TwoEntriesIssue(GRANT);
    PostGet(n.book.balances, GRANT.entries, Member("x"));
    PostGet(n.book.balances, GRANT.entries, Wallet(n));
  }

  lemma Granted()
    ensures Idle(A4().mem, true) && A4().disk == A4().mem && A4().posted == [] && A4().mem.members == {"x"}
    ensures A4().mem.outSeq == 1 && A4().mem.lastSeq == 1 && A4().mem.seen == {Uuid("2")} && A4().sent == A1().sent
    ensures Funded(A4().mem, 100) && OwnTx(A3().mem, GRANT)
  {
    hide A1, A2, B1, Appended, Get, OwnTx;
    Activated();
    Grants(A3().mem);
  }

  lemma Joined()
    ensures Idle(B2().mem, false) && B2().disk == B2().mem && B2().posted == [] && B2().mem.members == {"y"}
    ensures B2().mem.outSeq == 1 && B2().mem.lastSeq == 1 && B2().mem.seen == {Uuid("1")} && B2().sent == B1().sent
  {
    hide B1, A4;
    Responded();
  }

  // The payment is proposed, accepted and committed; then the payee's clock runs out.
  const START := Start(At(10, "4"), "x", "y", 10, PAYMENT)
  function A5(): Side { Step(A4(), B2(), START) }
  const ACCEPT := Receive(1, At(11, "5"), 0)
  function B3(): Side { Step(B2(), A5(), ACCEPT) }
  const COMMIT := Receive(1, At(12, "6"), 0)
  function A6(): Side { Step(A5(), B3(), COMMIT) }
  const EXPIRE := SweepAll([PAYMENT], 4000)
  function B4(): Side { Step(B3(), A6(), EXPIRE) }

  function Out(s: State): Transfer { Transfer(CONTACT, true, s, 0, "x", "y", 10, 9, 3610, None) }

  function In(s: State): Transfer { Transfer(CONTACT, false, s, 0, "x", "y", 10, 9, 3610, None) }

  lemma Quote()
    ensures PoolPrice(1000, 1000, 10) == Success(9) && LocalPart("x") == "x" && LocalPart("y") == "y"
  {
    assert 1000 * 10 / 1010 == 9;
    assert "x"[1..] == "" && "y"[1..] == "";
    assert ['x'] + "" == "x" && ['y'] + "" == "y";
  }

  lemma Starts(n: NodeState, ctx: Ctx)
    requires Idle(n, true) && Funded(n, 100) && n.members == {"x"} && ctx.now == 10
    ensures StartTransfer(n, ctx, "x", "y", 10, PAYMENT) ==
            Did(Send(n.(transfers := map[PAYMENT := Out(Proposed)],
                        contact := Some(LockedBy(n.contact.value, PAYMENT))), ctx,
                     TransferPropose(PAYMENT, CONTACT, 0, "x", "y", 10, 9, 3610)))
  {
    hide PoolPrice, LocalPart;
    Quote();
  }

  lemma StartedPayment()
    ensures A5().mem.transfers == map[PAYMENT := Out(Proposed)] && A5().disk == A5().mem && A5().posted == []
    ensures Idle(A4().mem, true) && A5().mem.contact == Some(LockedBy(A4().mem.contact.value, PAYMENT))
    ensures A5().mem.contact.value.id == CONTACT
    ensures A5().mem.lastSeq == 1 && A5().mem.seen == {Uuid("2")} && A5().mem.book == A4().mem.book
            && A5().mem.outSeq == 2
    ensures A5().sent == A1().sent
            + [Envelope(Uuid("4"), 2, 10, TransferPropose(PAYMENT, CONTACT, 0, "x", "y", 10, 9, 3610))]
    ensures A1().sent == [Envelope(Uuid("1"), 1, 0, ContactPropose(CONTACT, 1000))]
  {
    hide A1, A4, B2, StartTransfer, Funded;
    Opened();
    Granted();
    Starts(A4().mem, At(10, "4"));
  }

  const PROPOSAL := TransferPropose(PAYMENT, CONTACT, 0, "x", "y", 10, 9, 3610)

  lemma Accepts(n: NodeState, ctx: Ctx)
    requires Idle(n, false) && n.members == {"y"}
    ensures HandleTransferPropose(n, PROPOSAL, ctx) ==
            Send(n.(transfers := map[PAYMENT := In(Accepted)],
                    contact := Some(LockedBy(n.contact.value, PAYMENT))), ctx,
                 TransferAccept(PAYMENT))
  {
    hide PoolPrice, LocalPart;
    Quote();
  }

  /** Receiving an envelope that passes the gate does to contact and transfers what its handler does. */
  lemma Receives(n: NodeState, env: Envelope, ctx: Ctx)
    requires Validate(env, n.seen, n.lastSeq, ctx.now).Ok?
    ensures var r := ProcessInbound(n, env, ctx, 0);
            var o := Route(n, env.body, ctx, 0);
            && r.verdict.Ok? && r.out == o.out && r.node.transfers == o.node.transfers
            && r.node.contact == o.node.contact && r.node.outSeq == o.node.outSeq
            && r.node.seen == o.node.seen + {env.id}
            && r.node.lastSeq == if env.seqNo > o.node.lastSeq then env.seqNo else o.node.lastSeq
  {
    hide Route;
  }

  lemma AcceptedPayment()
    ensures B3().mem.transfers == map[PAYMENT := In(Accepted)] && B3().disk == B3().mem && B3().posted == []
    ensures B3().mem.contact.Some? && B3().mem.contact.value.busyTransfer == Some(PAYMENT)
            && B3().mem.contact.value.id == CONTACT
    ensures B3().sent == [Envelope(Uuid("2"), 1, 1, ContactAccept(CONTACT, 1000)),
                          Envelope(Uuid("5"), 2, 11, TransferAccept(PAYMENT))]
  {
    hide A1, A4, A5, B1, B2, HandleTransferPropose, ProcessInbound, Funded;
    StartedPayment();
    Joined();
    Responded();
    Accepts(B2().mem, At(11, "5"));
    Receives(B2().mem, A5().sent[1], At(11, "5"));
  }

  lemma Commits(n: NodeState, ctx: Ctx)
    requires n.transfers == map[PAYMENT := Out(Proposed)] && n.contact.Some? && n.contact.value.id == CONTACT
    requires Funded(n, 100) && ctx.now <= 3610
    ensures var o := HandleTransferAccept(n, TransferAccept(PAYMENT), ctx);
            && o.node.transfers == map[PAYMENT := Out(Committed)] && o.node.outSeq == n.outSeq + 1
            && o.node.contact.Some? && o.node.contact.value.id == CONTACT
            && o.out == Some(Envelope(ctx.envelopeId, n.outSeq + 1, ctx.now, TransferCommit(PAYMENT)))
  {
    hide ApplyTransfer, Appended, LocalPart;
    Quote();
    PaysOut(n, ctx);
    var t, c := n.transfers[PAYMENT], n.contact.value;
    ApplyTransferKeeps(c.(myReserveOfPeer := c.myReserveOfPeer + t.src, peerReserveOfMe := c.peerReserveOfMe - t.dst),
                       PAYMENT, t.src, t.dst, c.iAmProposer);
  }

  lemma AcceptancePasses()
    ensures |B3().sent| == 2 && B3().sent[1] == Envelope(Uuid("5"), 2, 11, TransferAccept(PAYMENT))
    ensures Validate(B3().sent[1], A5().mem.seen, A5().mem.lastSeq, 12).Ok?
  {
    hide A1, A4, A5, B3, Idle;
    StartedPayment();
    AcceptedPayment();
    assert "5"[0] != "2"[0];
    assert Uuid("5") !in A5().mem.seen;
  }

  lemma CommittedPayment()
    ensures A6().mem.transfers == map[PAYMENT := Out(Committed)] && A6().disk == A6().mem
    ensures A6().mem.contact.Some? && A6().mem.contact.value.id == CONTACT && A6().mem.outSeq == 3
    ensures A6().sent == A5().sent + [Envelope(Uuid("6"), 3, 12, TransferCommit(PAYMENT))]
  {
    hide A1, A4, A5, B3, HandleTransferAccept, ProcessInbound, Funded, Idle;
    StartedPayment();
    AcceptedPayment();
    Granted();
    FundedStays();
    Commits(A5().mem, At(12, "6"));
    AcceptancePasses();
    Receives(A5().mem, B3().sent[1], At(12, "6"));
  }

  lemma FundedStays()
    ensures Funded(A5().mem, 100)
  {
    hide A4, A5, Get;
    StartedPayment();
    Granted();
    assert A5().mem.book == A4().mem.book;
    SameHost();
  }

  lemma SameHost()
    ensures A5().mem.peerHost == A4().mem.peerHost
  {
    hide A4, B2, PoolPrice, LocalPart, Get;
    StartedPayment();
  }

  /** The payer's leg fits the ledger: its wallet only grows. */
  lemma PaysOut(n: NodeState, ctx: Ctx)
    requires Funded(n, 100)
    ensures Appended(n.book, TwoLegs(ctx, TransferOut, Some(PAYMENT), Member("x"), -10, Wallet(n), 10)).Success?
  {
    TwoLegsBooked(n.book, ctx, TransferOut, Some(PAYMENT), Member("x"), -10, Wallet(n));
  }

  lemma ExpiredPayment()
    ensures B4().mem.transfers == map[PAYMENT := In(Expired)] && B4().disk == B4().mem
  {
    hide A6, B3;
    AcceptedPayment();
    assert [PAYMENT][..0] == [];
    assert Sweep(B3().mem, [PAYMENT], 4000) == ExpireIfDue(B3().mem, PAYMENT, 4000);
  }

  // ----- the run -----

  function Story(): seq<System> {
    [System(A0(), B0()), System(A1(), B0()), System(A1(), B1()), System(A2(), B1()), System(A3(), B1()),
     System(A4(), B1()), System(A4(), B2()), System(A5(), B2()), System(A5(), B3()),
     System(A6(), B3()), System(A6(), B4())]
  }

  lemma PaymentIsNew()
    ensures Unused(A4(), B2(), PAYMENT)
  {
    hide A1, A4, B1, B2, Funded, Idle, UnknownTo, Blank, FreshContact, OwnTx, Get;
    Opened();
    Granted();
    Joined();
    Responded();
    IdleKnowsNothing(A4().mem, true, PAYMENT);
    IdleKnowsNothing(B2().mem, false, PAYMENT);
  }

  lemma IdleKnowsNothing(n: NodeState, proposer: bool, id: Id)
    requires Idle(n, proposer)
    ensures UnknownTo(n, id)
  {
  }

  lemma FollowsA(s: System, act: Action)
    requires Enabled(s.a, s.b, act)
    ensures Next(s, System(Step(s.a, s.b, act), s.b))
  {
    hide Enabled, Step;
    assert StepsA(s, System(Step(s.a, s.b, act), s.b), act);
  }

  lemma FollowsB(s: System, act: Action)
    requires Enabled(s.b, s.a, act)
    ensures Next(s, System(s.a, Step(s.b, s.a, act)))
  {
    hide Enabled, Step;
    assert StepsB(s, System(s.a, Step(s.b, s.a, act)), act);
  }

  lemma StoryIsRun()
    ensures IsRun(Story())
  {
    hide A0, B0, OwnTx, Unused, Next, Step, Funded, Idle, Init;
    Granted();
    PaymentIsNew();
    BlankStart();
    FollowsA(System(A0(), B0()), OPEN);
    FollowsB(System(A1(), B0()), RESPOND);
    FollowsA(System(A1(), B1()), ACTIVATE);
    FollowsA(System(A2(), B1()), SetMembers({"x"}));
    FollowsA(System(A3(), B1()), Local(GRANT));
    FollowsB(System(A4(), B1()), SetMembers({"y"}));
    FollowsA(System(A4(), B2()), START);
    FollowsB(System(A5(), B2()), ACCEPT);
    FollowsA(System(A5(), B3()), COMMIT);
    FollowsB(System(A6(), B3()), EXPIRE);
  }

  lemma BlankStart()
    ensures Init(System(A0(), B0()))
  {
  }

  /** Both sides need not commit: a run leads to a committed payment whose payee gave up. */
  lemma CommitMayBeLost()
    ensures exists me: Side, peer: Side, t: Id ::
              Reachable(me, peer)
              && StateOf(me.mem, t) == Some(Committed) && StateOf(peer.mem, t) == Some(Expired)
  {
    hide A6, B4, IsRun;
    StoryIsRun();
    CommittedPayment();
    ExpiredPayment();
    var me, peer := A6(), B4();
    assert Story()[10] == System(me, peer);
    assert Reachable(me, peer);
    assert StateOf(me.mem, PAYMENT) == Some(Committed) && StateOf(peer.mem, PAYMENT) == Some(Expired);
  }

  // ----- a commit overtaken -----

  /** The payer closes the contact, and the closing overtakes the commit. */
  const CLOSE := Close(At(13, "13"))
  function A7(): Side { Step(A6(), B3(), CLOSE) }
  const OVERTAKE := Receive(3, At(14, "14"), 0)
  function B5(): Side { Step(B3(), A7(), OVERTAKE) }

  lemma Closes()
    ensures A7().mem.transfers == map[PAYMENT := Out(Committed)] && A7().disk == A7().mem
    ensures |A7().sent| == 4 && A7().sent[..3] == A6().sent && |A5().sent| == 2
    ensures A7().sent[3] == Envelope(Uuid("13"), 4, 13, ContactClose(CONTACT))
    ensures A7().sent[2].body == TransferCommit(PAYMENT) && A7().sent[2].seqNo == 3
    ensures A7().sent[0].body.ContactPropose? && A7().sent[1].body.TransferPropose?
  {
    hide A1, A5, A6, B3, Idle, LockedBy, Get;
    StartedPayment();
    CommittedPayment();
  }

  lemma Overtakes()
    ensures B5().mem.transfers == map[PAYMENT := In(Accepted)] && B5().disk == B5().mem && B5().mem.lastSeq == 4
  {
    hide A5, A6, A7, B3;
    AcceptedPayment();
    Closes();
    AcceptedSeen();
    assert "13"[0] != "4"[0] && |"13"| != |"1"|;
  }

  lemma AcceptedSeen()
    ensures B3().mem.seen == {Uuid("1"), Uuid("4")} && B3().mem.lastSeq == 2
  {
    hide A1, A4, A5, B1, B2, HandleTransferPropose, ProcessInbound, Funded, Idle;
    StartedPayment();
    Joined();
    Responded();
    Receives(B2().mem, A5().sent[1], At(11, "5"));
    Accepts(B2().mem, At(11, "5"));
  }

  lemma PrefixIsRun(r: seq<System>, k: nat)
    requires IsRun(r) && 0 < k <= |r|
    ensures IsRun(r[..k]) && Last(r[..k]) == r[k - 1]
  {
    hide Next, Init;
    forall i | 0 < i < k ensures Next(r[..k][i - 1], r[..k][i]) {
      assert Next(r[i - 1], r[i]);
    }
  }

  lemma OvertakenIsLost()
    ensures Lost(A7(), A7().disk, B5(), B5().disk, PAYMENT)
  {
    hide A5, A6, A7, B3, B5;
    Closes();
    Overtakes();
    forall j | 0 <= j < |A7().sent| && A7().sent[j].body == TransferCommit(PAYMENT)
      ensures !Passable(B5().disk, A7().sent[j])
    {
      assert j == 2;
    }
  }

  /** A payment can be lost though nothing expired: a later message of the payer overtakes its
      commit, and the payee waits for one that is too old to be processed. */
  lemma CommitMayBeOvertaken() returns (r: seq<System>)
    ensures IsRun(r)
    ensures var me, peer := Last(r).a, Last(r).b;
            Lost(me, me.disk, peer, peer.disk, PAYMENT) && StateOf(peer.disk, PAYMENT) == Some(Accepted)
  {
    hide A0, B0, A1, A2, A3, A4, A5, A6, B1, B2, B3, B4, IsRun, Lost, Step, Continues;
    StoryIsRun();
    OvertakenIsLost();
    Overtakes();
    PrefixIsRun(Story(), 10);
    var r0 := Story()[..10];
    assert Story()[9] == System(A6(), B3());
    var r1 := Extend(r0, true, CLOSE);
    IsContinued(r0, r1);
    r := Extend(r1, false, OVERTAKE);
    IsContinued(r1, r);
    assert Last(r) == System(A7(), B5());
  }

  lemma IsContinued(r: seq<System>, r': seq<System>)
    requires Continues(r, r')
    ensures IsRun(r') && r' != []
  {
    ContinuesRun(r, r');
  }

  // ----- an honest peer frozen -----

  /** The responder publishes, and the proposer starts again before it learned of the answer. */
  function B1Posted(): Side { Step(B1(), A1(), Post) }
  function A1Restarted(): Side { Step(A1(), B1Posted(), Restart) }

  lemma RestartedPending()
    ensures A1Restarted().mem.contact == Some(FreshContact(CONTACT, true, 1000, 0).(roots := [Zero]))
  {
    hide A1, B1;
    Opened();
    assert RecordRoot(FreshContact(CONTACT, true, 1000, 0)).roots == [Zero];
  }

  lemma PostedActive()
    ensures |B1Posted().posted| == 1
    ensures var p := B1Posted().posted[0]; p.active && p.checkpoint.contactId == CONTACT && p.checkpoint.opSeq == 0
  {
    hide A1, B1;
    Responded();
  }

  lemma FreezeStoryIsRun()
    ensures IsRun([System(A0(), B0()), System(A1(), B0()), System(A1(), B1()), System(A1(), B1Posted()),
                   System(A1Restarted(), B1Posted())])
  {
    hide A0, B0, Next, Step, Init;
    BlankStart();
    FollowsA(System(A0(), B0()), OPEN);
    FollowsB(System(A1(), B0()), RESPOND);
    FollowsB(System(A1(), B1()), Post);
    FollowsA(System(A1(), B1Posted()), Restart);
  }

  /** Comparing with a current checkpoint of an honest, active peer can freeze a contact: a
      proposer that started again while its contact was pending holds a zero root against it. */
  lemma HonestPeerMayBeFrozen()
    ensures exists me: Side, peer: Side, j: nat ::
              Reachable(me, peer) && j < |peer.posted| && peer.posted[j].active
              && Freezes(me.mem, peer.posted[j].checkpoint)
  {
    hide A0, B0, A1, B1, A1Restarted, B1Posted, IsRun, Freezes;
    FreezeStoryIsRun();
    RestartedPending();
    PostedActive();
    var r := [System(A0(), B0()), System(A1(), B0()), System(A1(), B1()), System(A1(), B1Posted()),
              System(A1Restarted(), B1Posted())];
    var me, peer := A1Restarted(), B1Posted();
    assert r[4] == System(me, peer);
    assert Reachable(me, peer);
    FreezesExactly(me, me.mem, peer, 0);
    assert Freezes(me.mem, peer.posted[0].checkpoint);
  }

  // ----- two adjustments at once -----

  /** Each side proposes an adjustment before it sees the other's, and refuses it as busy. */
  const RAISE_A := Uuid("raise-a")
  const RAISE_B := Uuid("raise-b")
  function A2Raising(): Side { Step(A2(), B1(), Adjust(At(20, "7"), 5, RAISE_A)) }
  function B1Raising(): Side { Step(B1(), A2Raising(), Adjust(At(20, "8"), 5, RAISE_B)) }
  function B1Refused(): Side { Step(B1Raising(), A2Raising(), Receive(1, At(21, "9"), 0)) }
  function A2Refused(): Side { Step(A2Raising(), B1Refused(), Receive(1, At(21, "10"), 0)) }

  /** A node that proposed adjustment id and nothing else since it opened. */
  predicate Raising(n: NodeState, id: Id) {
    && n.contact.Some? && n.transfers == map[] && n.outSeq == 2 && n.lastSeq == 1
    && var c := n.contact.value;
       && c.id == CONTACT && c.active && !c.closed && !c.diverged && c.busy
       && c.busyTransfer == Some(id) && c.pendingAdjust == Some(id) && c.appliedAdjusts == {}
  }

  lemma Raises(n: NodeState, proposer: bool, ctx: Ctx, id: Id)
    requires Idle(n, proposer) && n.outSeq == 1 && n.lastSeq == 1
    ensures var d := AdjustReserve(n, ctx, 5, id);
            && d.ok && Raising(d.node, id) && d.node.seen == n.seen
            && d.out == Some(Envelope(ctx.envelopeId, 2, ctx.now, Body.ReserveAdjust(CONTACT, 0, id, 5)))
  {
  }

  lemma RaisedBoth()
    ensures var a, b := A2Raising(), B1Raising();
            && a.disk == a.mem && Raising(a.mem, RAISE_A) && a.mem.seen == {Uuid("2")}
            && a.sent == A2().sent + [Envelope(Uuid("7"), 2, 20, Body.ReserveAdjust(CONTACT, 0, RAISE_A, 5))]
            && Raising(b.mem, RAISE_B) && b.mem.seen == {Uuid("1")}
            && b.sent == B1().sent + [Envelope(Uuid("8"), 2, 20, Body.ReserveAdjust(CONTACT, 0, RAISE_B, 5))]
  {
    hide A2, B1, AdjustReserve, Idle, Raising, Funded;
    Activated();
    Responded();
    Raises(A2().mem, true, At(20, "7"), RAISE_A);
    Raises(B1().mem, false, At(20, "8"), RAISE_B);
  }

  lemma RefusesBusy(n: NodeState, id: Id, env: Envelope, ctx: Ctx)
    requires Raising(n, id) && env.seqNo == 2 && env.id !in n.seen && env.created == 20 && ctx.now == 21
    requires env.body.ReserveAdjust?
    ensures var r := ProcessInbound(n, env, ctx, 0);
            && r.verdict.Ok? && r.out == Some(Envelope(ctx.envelopeId, 3, 21, ErrorReply(ContactBusy)))
            && r.node.contact == n.contact && r.node.lastSeq == 2 && r.node.outSeq == 3
  {
    assert ReleaseIfBusyExpired(n, 21) == n;
  }

  lemma RefusedB()
    ensures var b := B1Refused();
            && b.mem.contact == B1Raising().mem.contact && b.mem.lastSeq == 2
            && b.sent == B1Raising().sent + [Envelope(Uuid("9"), 3, 21, ErrorReply(ContactBusy))]
    ensures |A2().sent| == 1 && |B1().sent| == 1
  {
    hide A1, A2, B1, A2Raising, B1Raising, Raising, ProcessInbound, Idle, Funded;
    RaisedBoth();
    Opened();
    Activated();
    Responded();
    assert "7"[0] != "1"[0];
    RefusesBusy(B1Raising().mem, RAISE_B, A2Raising().sent[1], At(21, "9"));
    RaisingIs(B1Raising().mem, RAISE_B);
  }

  lemma RefusedA()
    ensures var a := A2Refused();
            && a.mem.contact == A2Raising().mem.contact && a.mem.lastSeq == 2
            && a.sent == A2Raising().sent + [Envelope(Uuid("10"), 3, 21, ErrorReply(ContactBusy))]
  {
    hide A2, B1, A2Raising, B1Raising, B1Refused, Raising, ProcessInbound;
    RaisedBoth();
    RefusedB();
    assert "8"[0] != "2"[0];
    assert B1Refused().sent[1] == B1Raising().sent[1];
    RefusesBusy(A2Raising().mem, RAISE_A, B1Refused().sent[1], At(21, "10"));
    RaisingIs(A2Raising().mem, RAISE_A);
  }

  lemma RaisingKnowsNothing(n: NodeState, mine: Id, id: Id)
    requires Raising(n, mine)
    ensures UnknownTo(n, id)
  {
  }

  lemma RaisesAreNew()
    ensures Unused(A2(), B1(), RAISE_A) && Unused(B1(), A2Raising(), RAISE_B)
  {
    hide A1, A2, B1, A2Raising, Funded, Idle, Raising, UnknownTo;
    Opened();
    Activated();
    Responded();
    RaisedBoth();
    IdleKnowsNothing(A2().mem, true, RAISE_A);
    IdleKnowsNothing(B1().mem, false, RAISE_A);
    IdleKnowsNothing(B1().mem, false, RAISE_B);
    RaisingKnowsNothing(A2Raising().mem, RAISE_A, RAISE_B);
    assert "raise-a"[6] != "raise-b"[6];
  }

  lemma RaisesAreRun()
    ensures IsRun([System(A0(), B0()), System(A1(), B0()), System(A1(), B1()), System(A2(), B1()),
                   System(A2Raising(), B1()), System(A2Raising(), B1Raising()), System(A2Raising(), B1Refused()),
                   System(A2Refused(), B1Refused())])
  {
    hide A0, B0, Next, Step, Init, Unused;
    BlankStart();
    RaisesAreNew();
    FollowsA(System(A0(), B0()), OPEN);
    FollowsB(System(A1(), B0()), RESPOND);
    FollowsA(System(A1(), B1()), ACTIVATE);
    FollowsA(System(A2(), B1()), Adjust(At(20, "7"), 5, RAISE_A));
    FollowsB(System(A2Raising(), B1()), Adjust(At(20, "8"), 5, RAISE_B));
    FollowsB(System(A2Raising(), B1Raising()), Receive(1, At(21, "9"), 0));
    FollowsA(System(A2Raising(), B1Refused()), Receive(1, At(21, "10"), 0));
  }

  lemma RaisingIs(n: NodeState, id: Id)
    requires Raising(n, id)
    ensures PendingAt(n) == Some(id) && n.lastSeq == 1 && n.outSeq == 2
  {
  }

  lemma LoneRaise(me: Side, peer: Side, a: Id)
    requires me.mem.lastSeq == peer.mem.lastSeq == 2
    requires 2 <= |me.sent| && me.sent[1].body.ReserveAdjust? && me.sent[1].body.adjustId == a
    requires |peer.sent| == 3 && peer.sent[2].body.ErrorReply?
    ensures Unanswered(me, me.mem, peer, peer.mem, a, 1)
  {
  }

  /** Two adjustments proposed at once refuse each other: both contacts stay locked for ever. */
  lemma AdjustmentsMayCross()
    ensures exists me: Side, peer: Side, a: Id, b: Id ::
              && Reachable(me, peer) && PendingAt(me.mem) == Some(a) && PendingAt(peer.mem) == Some(b)
              && Unanswered(me, me.mem, peer, peer.mem, a, 1) && Unanswered(peer, peer.mem, me, me.mem, b, 1)
  {
    hide A0, B0, A1, A2, B1, A2Raising, B1Raising, A2Refused, B1Refused, IsRun, Raising, Unanswered;
    RaisesAreRun();
    RaisedBoth();
    RefusedB();
    RefusedA();
    RaisingIs(A2Raising().mem, RAISE_A);
    RaisingIs(B1Raising().mem, RAISE_B);
    var me, peer := A2Refused(), B1Refused();
    LoneRaise(me, peer, RAISE_A);
    LoneRaise(peer, me, RAISE_B);
    var r := [System(A0(), B0()), System(A1(), B0()), System(A1(), B1()), System(A2(), B1()),
              System(A2Raising(), B1()), System(A2Raising(), B1Raising()), System(A2Raising(), B1Refused()),
              System(A2Refused(), B1Refused())];
    assert r[7] == System(me, peer);
    assert Reachable(me, peer);
    assert PendingAt(me.mem) == Some(RAISE_A) && PendingAt(peer.mem) == Some(RAISE_B);
  }

  // ----- an adjustment proposed again -----

  /** The responder mirrors the proposer's adjustment. */
  function B1Mirrored(): Side { Step(B1(), A2Raising(), Receive(1, At(21, "9"), 0)) }

  lemma MirrorsRaise(n: NodeState, env: Envelope, ctx: Ctx)
    requires Idle(n, false) && n.lastSeq == 1 && env.seqNo == 2 && env.id !in n.seen
    requires env.created == 20 && ctx.now == 21 && env.body == Body.ReserveAdjust(CONTACT, 0, RAISE_A, 5)
    ensures var n' := ProcessInbound(n, env, ctx, 0).node; RAISE_A in AppliedAt(n') && OpenAndIdle(n', 22)
  {
    hide ApplyAdjust;
    var c := n.contact.value;
    assert ReleaseIfBusyExpired(n, 21) == n;
    AppliedFields(c.(peerReserveOfMe := c.peerReserveOfMe + 5), RAISE_A, 5, !c.iAmProposer);
  }

  lemma AppliedFields(c: Contact, id: Id, delta: int, byProposer: bool)
    ensures var d := ApplyAdjust(c, id, delta, byProposer);
            && d.active == c.active && d.closed == c.closed && d.diverged == c.diverged && d.busy == c.busy
            && d.appliedAdjusts == c.appliedAdjusts
  {
    hide ChannelNext, Padded;
  }

  lemma MirroredRaise()
    ensures RAISE_A in AppliedAt(B1Mirrored().mem) && OpenAndIdle(B1Mirrored().mem, 22)
    ensures |A2Raising().sent| == 2 && A2Raising().sent[1].body == Body.ReserveAdjust(CONTACT, 0, RAISE_A, 5)
  {
    hide A1, A2, B1, A2Raising, B1Raising, Raising, ProcessInbound, Idle, Funded, OpenAndIdle;
    RaisedBoth();
    Opened();
    Activated();
    Responded();
    assert "7"[0] != "1"[0];
    MirrorsRaise(B1().mem, A2Raising().sent[1], At(21, "9"));
  }

  /** A proposal whose acceptance may be lost is refused when it comes again, although the contact
      is open and idle and the adjustment is applied. */
  lemma RecoveryMayBeRefused()
    ensures exists me: Side, peer: Side, i: nat, ctx: Ctx ::
              && Reachable(me, peer) && i < |peer.sent| && peer.sent[i].body.ReserveAdjust?
              && peer.sent[i].body.adjustId in AppliedAt(me.mem) && OpenAndIdle(me.mem, ctx.now)
              && HandleReserveAdjust(me.mem, peer.sent[i].body, ctx).out.Some?
              && HandleReserveAdjust(me.mem, peer.sent[i].body, ctx).out.value.body == ErrorReply(StaleOp)
  {
    var r := [System(A0(), B0()), System(A1(), B0()), System(A1(), B1()), System(A2(), B1()),
              System(A2Raising(), B1()), System(A2Raising(), B1Mirrored())];
    MirroredIsRun();
    MirroredRaise();
    hide A0, B0, A1, A2, B1, A2Raising, B1Mirrored, IsRun, OpenAndIdle, HandleReserveAdjust, Reachable;
    var me, peer, ctx := B1Mirrored(), A2Raising(), At(22, "11");
    IsReachable(r, 5, me, peer);
    var b := peer.sent[1].body;
    assert Renumbered(b, b.opSeq) == b;
    AdjustmentComesAgain(me, me.mem, peer, peer.mem, 1, b.opSeq, ctx);
    assert Reachable(me, peer) && OpenAndIdle(me.mem, ctx.now);
  }

  lemma IsReachable(r: seq<System>, k: nat, me: Side, peer: Side)
    requires IsRun(r) && k < |r| && r[k] == System(peer, me)
    ensures Reachable(me, peer)
  {
    hide IsRun;
  }

  lemma MirroredIsRun()
    ensures IsRun([System(A0(), B0()), System(A1(), B0()), System(A1(), B1()), System(A2(), B1()),
                   System(A2Raising(), B1()), System(A2Raising(), B1Mirrored())])
  {
    hide A0, B0, Next, Step, Init, Unused;
    BlankStart();
    RaisesAreNew();
    FollowsA(System(A0(), B0()), OPEN);
    FollowsB(System(A1(), B0()), RESPOND);
    FollowsA(System(A1(), B1()), ACTIVATE);
    FollowsA(System(A2(), B1()), Adjust(At(20, "7"), 5, RAISE_A));
    FollowsB(System(A2Raising(), B1()), Receive(1, At(21, "9"), 0));
  }

  // ----- two openings at once -----

  const OPEN_BACK := Open(At(0, "12"), 500, Uuid("other"))
  function B0Opening(): Side { Step(B0(), A1(), OPEN_BACK) }

  lemma OpensBack()
    ensures B0Opening().disk.contact.Some? && B0Opening().disk.contact.value.iAmProposer
  {
    hide A1;
  }

  /** Both nodes may propose before either sees the other's proposal. */
  lemma OpeningsMayCross()
    ensures exists r: seq<System> ::
              && IsRun(r) && |r| == 3
              && r[2].a.disk.contact.Some? && r[2].a.disk.contact.value.iAmProposer
              && r[2].b.disk.contact.Some? && r[2].b.disk.contact.value.iAmProposer
  {
    Opened();
    OpensBack();
    var r := [System(A0(), B0()), System(A1(), B0()), System(A1(), B0Opening())];
    hide A0, B0, Next, Step, Init;
    BlankStart();
    FollowsA(System(A0(), B0()), OPEN);
    FollowsB(System(A1(), B0()), OPEN_BACK);
    assert IsRun(r);
    assert A1().disk.contact.value.iAmProposer;
    assert r[2].a.disk.contact.value.iAmProposer && r[2].b.disk.contact.value.iAmProposer;
  }

  // ----- a checkpoint from before the opening -----

  /** The proposer publishes while its contact is still pending. */
  function A1Posted(): Side { Step(A1(), B0(), Post) }

  /** An active responder that compares with what its honest peer published before it opened
      freezes the contact. */
  lemma EarlyCheckpointFreezes() returns (r: seq<System>)
    ensures IsRun(r)
    ensures var me, peer := Last(r).b, Last(r).a;
            |peer.posted| == 1 && !peer.posted[0].active && ActiveAt(me.mem)
              && Freezes(me.mem, peer.posted[0].checkpoint)
  {
    hide A0, B0, A1, A2, A3, A4, A5, A6, B1, B2, B3, B4, IsRun, Step, Continues, Freezes, Idle;
    EarlyPost();
    Responded();
    StoryIsRun();
    PrefixIsRun(Story(), 2);
    assert Story()[1] == System(A1(), B0());
    var r0 := Story()[..2];
    var r1 := Extend(r0, true, Post);
    IsContinued(r0, r1);
    r := Extend(r1, false, RESPOND);
    IsContinued(r1, r);
    SameResponse();
    IdleIsActive(B1().mem, false);
    var me, peer := Last(r).b, Last(r).a;
    MetLast(r, false, me.mem, peer.mem);
    FreezesExactly(me, me.mem, peer, 0);
  }

  lemma EarlyPost()
    ensures var p := A1Posted().posted;
            |p| == 1 && !p[0].active && p[0].checkpoint.contactId == CONTACT && A1Posted().sent == A1().sent
  {
    hide A1;
    Opened();
  }

  lemma SameResponse()
    ensures Step(B0(), A1Posted(), RESPOND) == B1()
  {
    hide A1, B0, ProcessInbound;
    EarlyPost();
  }

  lemma IdleIsActive(n: NodeState, proposer: bool)
    requires Idle(n, proposer)
    ensures ActiveAt(n) && n.contact.value.id == CONTACT
  {
  }
}
