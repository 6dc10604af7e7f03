/** States that no message of an honest peer leads out of: a payment whose payee gave up, two
    openings at once, and an adjustment that nothing answers. */
module SystemDeadlocks {
  import opened Wrappers
  import opened ChannelHistory
  import opened Ledgers
  import opened TransferStates
  import opened Messages
  import opened NodeSpec
  import opened NodeInvariant
  import opened NodeRecords
  import opened NodeSteps
  import opened NodeAdjustSteps
  import opened NodeGrowth
  import opened NodeFrames
  import opened Systems
  import opened SystemInvariant
  import opened SystemRuns
  import opened SystemSafety
  import opened SystemTheorems
  import opened SystemTurns
  import opened SystemRetries
  import P = ProtocolInvariant

  // ----- a payment without its payout, and two openings at once -----

  /** An expired payment's payer is committed for good, and its contact locked. */
  lemma StrandedHere(me: Side, n: NodeState, peer: Side, m: NodeState, t: Id)
    requires Met(me, n, peer, m) && t in n.transfers && n.transfers[t].outgoing && Spent(n.transfers[t].state)
    requires StateOf(m, t) == Some(Expired)
    ensures StateOf(n, t) == Some(Committed) && n.contact.Some? && n.contact.value.busyTransfer == Some(t)
  {
    hide Met, Good;
    OutcomesAgree(me, n, peer, m, t);
    MetGood(me, n, peer, m);
    LiveHolds(n, CoreOf(m), me.sent, peer.sent, t);
  }

  lemma DecidedLater(s: Side, s': Side, t: Id)
    requires SideGrows(s, s') && t in s.disk.transfers
    ensures t in s'.disk.transfers && s'.disk.transfers[t].outgoing == s.disk.transfers[t].outgoing
    ensures Spent(s.disk.transfers[t].state) ==> Spent(s'.disk.transfers[t].state)
    ensures s.disk.transfers[t].state.Expired? ==> s'.disk.transfers[t].state.Expired?
  {
  }

  lemma SidesGrow(r: seq<System>, j: nat, k: nat, first: bool)
    requires IsRun(r) && j <= k < |r|
    ensures SideGrows(Mine(r[j], first), Mine(r[k], first))
    ensures var me, peer := Mine(r[k], first), Theirs(r[k], first); Met(me, me.disk, peer, peer.disk)
  {
    hide IsRun, Met, SideGrows;
    RunGrows(r, j, k);
    MetInRun(r, k);
    MetStored(r[k].a, r[k].b);
    MetStored(r[k].b, r[k].a);
  }

  /** Once a payee's expiry overtook a commit, nothing later settles the payment: it stays
      committed on one side and expired on the other, and the payer's contact stays locked. */
  lemma StrandedForever(r: seq<System>, j: nat, k: nat, first: bool, t: Id)
    requires IsRun(r) && j <= k < |r|
    requires var n, m := Mine(r[j], first).disk, Theirs(r[j], first).disk;
             StateOf(n, t) == Some(Committed) && n.transfers[t].outgoing && StateOf(m, t) == Some(Expired)
    ensures var n, m := Mine(r[k], first).disk, Theirs(r[k], first).disk;
            && StateOf(n, t) == Some(Committed) && StateOf(m, t) == Some(Expired)
            && n.contact.Some? && n.contact.value.busyTransfer == Some(t)
  {
    hide IsRun, SideGrows, Met, Mine;
    SidesGrow(r, j, k, first);
    SidesGrow(r, j, k, !first);
    DecidedLater(Mine(r[j], first), Mine(r[k], first), t);
    DecidedLater(Theirs(r[j], first), Theirs(r[k], first), t);
    var me, peer := Mine(r[k], first), Theirs(r[k], first);
    StrandedHere(me, me.disk, peer, peer.disk, t);
  }

  /** When both nodes propose, neither contact ever opens: both stay pending for good, and each
      refuses the other's proposal. */
  lemma CrossedOpenings(r: seq<System>, j: nat, k: nat, first: bool, i: nat, ctx: Ctx, autoSeed: int)
    requires IsRun(r) && j <= k < |r|
    requires r[j].a.disk.contact.Some? && r[j].a.disk.contact.value.iAmProposer
    requires r[j].b.disk.contact.Some? && r[j].b.disk.contact.value.iAmProposer
    ensures var n, peer := Mine(r[k], first).disk, Theirs(r[k], first);
            && n.contact.Some? && n.contact.value.iAmProposer && !n.contact.value.active && n.transfers == map[]
            && (i < |peer.sent| && peer.sent[i].body.ContactPropose? && autoSeed > 0 && peer.sent[i].body.mySeed > 0 ==>
                 HandleContactPropose(n, peer.sent[i].body, ctx, autoSeed) == SendError(n, ctx, DuplicateContact))
  {
    hide IsRun, Met, TransfersGrow;
    RunGrows(r, j, k);
    MetInRun(r, k);
    MetStored(r[k].a, r[k].b);
    MetStored(r[k].b, r[k].a);
    var me, peer := Mine(r[k], first), Theirs(r[k], first);
    if me.disk.contact.value.active {
      Sides(me, me.disk, peer, peer.disk);
    }
    PendingIsEmpty(me, me.disk, peer, peer.disk);
  }

  lemma PendingIsEmpty(me: Side, n: NodeState, peer: Side, m: NodeState)
    requires Met(me, n, peer, m) && n.contact.Some? && !n.contact.value.active
    ensures n.transfers == map[]
  {
    hide Met, Kept, P.Locked, P.LegStates, P.Pinned, P.Backed, P.Ordered, P.Distinct, P.Pairing, P.Agree, Rooted,
      Reserved;
    MetPair(me, n, peer, m);
    assert forall t :: t in n.transfers ==> t in CoreOf(n).legs;
  }

  // ----- an adjustment without an answer -----

  /** The peer processed the proposal of adjustment a, and no acceptance of it is still to come. */
  ghost predicate Unanswered(me: Side, n: NodeState, peer: Side, m: NodeState, a: Id, i: nat) {
    && i < |me.sent| && me.sent[i].body.ReserveAdjust? && me.sent[i].body.adjustId == a && i < m.lastSeq
    && NoneAccepts(peer.sent, n.lastSeq, a)
  }

  predicate Accepts(b: Body, a: Id) { b.ReserveAccept? && b.adjustId == a }

  /** From position k on no message accepts adjustment a. */
  ghost predicate NoneAccepts(sent: Sent, k: nat, a: Id) { forall j :: k <= j < |sent| ==> !Accepts(sent[j].body, a) }

  /** A proposal that was processed and not applied was refused: no acceptance of it exists. */
  lemma RefusedIsUnanswered(me: Side, n: NodeState, peer: Side, m: NodeState, a: Id, i: nat)
    requires Met(me, n, peer, m) && i < |me.sent| && me.sent[i].body.ReserveAdjust? && me.sent[i].body.adjustId == a
    requires i < m.lastSeq && a !in AppliedAt(m)
    ensures Unanswered(me, n, peer, m, a, i)
  {
    hide Met, Linked, Kept, P.Pairing, P.Agree, P.LegStates, P.Local, P.Ordered, P.Distinct;
    MetPair(me, n, peer, m);
    assert CoreOf(m).applied == AppliedAt(m);
    assert forall j :: 0 <= j < |peer.sent| ==> P.Backs(CoreOf(m), peer.sent[j].body);
  }

  lemma PendingHolds(me: Side, n: NodeState, peer: Side, m: NodeState, a: Id, now: int)
    requires Met(me, n, peer, m) && PendingAt(n) == Some(a)
    ensures n.contact.Some? && n.contact.value.busy && n.contact.value.busyTransfer == Some(a)
    ensures ReleaseIfBusyExpired(n, now) == n
  {
    hide Met, Kept, P.Opened, P.LegStates, P.Pinned, P.Backed, P.Ordered, P.Distinct, P.Pairing, P.Agree, Rooted,
      Reserved;
    MetPair(me, n, peer, m);
    assert P.Locked(CoreOf(n));
    assert a in n.transfers ==> a in CoreOf(n).legs;
  }

  /** The proposer's own turn leaves an unanswered adjustment pending. */
  lemma UnansweredHere(r: seq<System>, turns: seq<Turn>, k: nat, first: bool, n: NodeState, m: NodeState, n': NodeState,
                       a: Id, i: nat)
    requires Follows(r, turns) && k < |turns| && turns[k].first == first
    requires Holds(Mine(r[k], first), n) && Holds(Theirs(r[k], first), m)
    requires PendingAt(n) == Some(a) && Unanswered(Mine(r[k], first), n, Theirs(r[k], first), m, a, i)
    requires Kin(n, n') || AdjustsLike(n, Theirs(r[k], first), turns[k].act, n')
    ensures PendingAt(n') == Some(a)
  {
    hide Follows, Met, ReleaseIfBusyExpired;
    Lengths(r, turns);
    MetAt(r, turns, k, first, n, m);
    if turns[k].act.Adjust? {
      PendingHolds(Mine(r[k], first), n, Theirs(r[k], first), m, a, turns[k].act.ctx.now);
    }
  }

  /** The peer acknowledges no proposal that it processed before. */
  lemma NoneAcknowledged(me: Side, peer: Side, act: Action, a: Id, i: nat)
    requires Met(peer, peer.mem, me, me.mem) && i < |me.sent| && i < peer.mem.lastSeq
    requires me.sent[i].body.ReserveAdjust? && me.sent[i].body.adjustId == a
    ensures var r := Act(peer.mem, me, act); !Acknowledges(peer.mem, Outcome(r.node, r.out), a)
  {
    hide Act, Met, Good, Numbered;
    AdjustFacts(peer, peer.mem, me, me.mem, i);
    MetGood(peer, peer.mem, me, me.mem);
    OutSeqIs(me.mem, CoreOf(peer.mem), me.sent, peer.sent);
    var r := Act(peer.mem, me, act);
    if Acknowledges(peer.mem, Outcome(r.node, r.out), a) {
      ActAcknowledges(peer.mem, me, act, a);
    }
  }

  lemma NoneSent(peer: Side, me: Side, act: Action, a: Id, k: nat)
    requires var r := Act(peer.mem, me, act); !Acknowledges(peer.mem, Outcome(r.node, r.out), a)
    requires NoneAccepts(peer.sent, k, a)
    ensures NoneAccepts(Step(peer, me, act).sent, k, a)
  {
    hide Act;
  }

  /** The peer's turn sends no acceptance of a proposal it already processed. */
  lemma UnansweredThere(r: seq<System>, turns: seq<Turn>, k: nat, first: bool, n: NodeState, m: NodeState,
                        a: Id, i: nat)
    requires Follows(r, turns) && k < |turns| && turns[k].first != first
    requires Holds(Mine(r[k], first), n) && Holds(Theirs(r[k], first), m)
    requires Unanswered(Mine(r[k], first), n, Theirs(r[k], first), m, a, i)
    ensures |r| == |turns| + 1 && NoneAccepts(Theirs(r[k + 1], first).sent, n.lastSeq, a)
  {
    hide Follows, Act, Enabled, Met, Behind, Step, NoneAccepts, Acknowledges;
    Lengths(r, turns);
    TurnTaken(r, turns, k, first);
    var me, peer, act := Mine(r[k], first), Theirs(r[k], first), turns[k].act;
    SideBehind(r, turns, k, !first);
    HeldTogether(peer, m, peer.mem, a);
    MetAt(r, turns, k, !first, peer.mem, me.mem);
    NoneAcknowledged(me, peer, act, a, i);
    NoneSent(peer, me, act, a, n.lastSeq);
  }

  /** Whatever its schedule: once the peer has processed the proposal and no acceptance is left to
      process, because it refused or because its acceptance was overtaken, the adjustment stays
      pending and the contact locked for ever. */
  lemma {:induction false} AdjustmentStaysLocked(r: seq<System>, turns: seq<Turn>, j: nat, k: nat, first: bool,
                                                 n: NodeState, m: NodeState, n': NodeState, m': NodeState,
                                                 a: Id, i: nat)
    requires Follows(r, turns) && j <= k < |r|
    requires Holds(Mine(r[j], first), n) && Holds(Theirs(r[j], first), m) && PendingAt(n) == Some(a)
    requires Unanswered(Mine(r[j], first), n, Theirs(r[j], first), m, a, i)
    requires Holds(Mine(r[k], first), n') && Holds(Theirs(r[k], first), m')
    ensures PendingAt(n') == Some(a) && Unanswered(Mine(r[k], first), n', Theirs(r[k], first), m', a, i)
    ensures n'.contact.Some? && n'.contact.value.busyTransfer == Some(a)
    decreases k
  {
    hide Follows, Met, Step, Enabled, AdjustsLike, AdvancesBy, Behind, Accepts;
    if j == k {
      SideBehind(r, turns, k, first);
      SideBehind(r, turns, k, !first);
      HeldTogether(Mine(r[k], first), n, n', a);
      HeldTogether(Theirs(r[k], first), m, m', a);
    } else {
      Lengths(r, turns);
      var n1 := TurnFrame(r, turns, k - 1, first, n');
      var m1 := TurnFrame(r, turns, k - 1, !first, m');
      AdjustmentStaysLocked(r, turns, j, k - 1, first, n, m, n1, m1, a, i);
      PeerSentGrows(r, turns, k - 1, first);
      TurnTaken(r, turns, k - 1, first);
      if turns[k - 1].first == first {
        UnansweredHere(r, turns, k - 1, first, n1, m1, n', a, i);
      } else {
        UnansweredThere(r, turns, k - 1, first, n1, m1, a, i);
      }
    }
    MetAt(r, turns, k, first, n', m');
    PendingHolds(Mine(r[k], first), n', Theirs(r[k], first), m', a, 0);
  }

  /** As long as an acceptance is left to process, processing it books the adjustment and frees
      the contact. */
  lemma AcceptanceFrees(me: Side, n: NodeState, peer: Side, m: NodeState, j: nat, a: Id, ctx: Ctx, autoSeed: int)
    requires Met(me, n, peer, m) && j < |peer.sent| && Accepts(peer.sent[j].body, a) && PendingAt(n) == Some(a)
    requires Validate(peer.sent[j], n.seen, n.lastSeq, ctx.now).Ok?
    ensures var n' := ProcessInbound(n, peer.sent[j], ctx, autoSeed).node;
            && PendingAt(n') == None && n'.contact.Some? && !n'.contact.value.busy
            && |History(n')| == |History(n)| + 1
  {
    hide Met, Good, Appended, ApplyAdjust;
    MetGood(me, n, peer, m);
    AdjustBooked(n, CoreOf(m), me.sent, peer.sent, ctx, a);
    var c := n.contact.value;
    ApplyAdjustKeeps(c.(myReserveOfPeer := c.myReserveOfPeer + c.pendingDelta), a, c.pendingDelta, c.iAmProposer);
  }
}
