/** When a pending contact can still open: exactly if its acceptance, or the proposal that would
    be accepted, can still be processed. */
module SystemOpenings {
  import opened Wrappers
  import opened ChannelHistory
  import opened Ledgers
  import opened TransferStates
  import opened Messages
  import opened NodeSpec
  import opened NodeInvariant
  import opened NodeRecords
  import opened NodeSteps
  import opened NodeOpenSteps
  import opened NodeInbound
  import opened NodeGrowth
  import opened NodeTriggers
  import opened Systems
  import opened SystemInvariant
  import opened SystemRuns
  import opened SystemSafety
  import opened SystemPromises
  import opened SystemTheorems
  import opened SystemTurns
  import opened SystemRetries
  import opened SystemFutures
  import P = ProtocolInvariant

  ghost predicate NoAnswer(n: NodeState, sent: Sent) {
    forall j :: 0 <= j < |sent| && sent[j].body.ContactAccept? ==> !Passable(n, sent[j])
  }

  ghost predicate NoOffer(m: NodeState, sent: Sent) {
    forall i :: 0 <= i < |sent| && sent[i].body.ContactPropose? ==> !Passable(m, sent[i])
  }

  /** The contact is pending, no acceptance of it is left to process, and none will be sent: the
      peer has a contact already, or the proposal was processed or overtaken. */
  ghost predicate Unopened(me: Side, n: NodeState, peer: Side, m: NodeState) {
    AwaitsSeed(n) && NoAnswer(n, peer.sent) && (m.contact.Some? || NoOffer(m, me.sent))
  }

  // ----- it stays pending -----

  lemma ProposerWaits(r: seq<System>, turns: seq<Turn>, k: nat, first: bool, n: NodeState, m: NodeState, n': NodeState)
    requires k < |turns| && k < |r| && ComesFrom(r, turns, k, first, n, n')
    requires Unopened(Mine(r[k], first), n, Theirs(r[k], first), m)
    ensures AwaitsSeed(n')
  {
    hide Act, Answers, TransfersGrow, Passable;
  }

  /** Nothing in a log grows but by what this turn sent. */
  lemma OffersNothing(me: Side, peer: Side, act: Action, m: NodeState, m': NodeState)
    requires ActsLike(me.mem, peer, act, Act(me.mem, peer, act)) && me.mem.contact.Some?
    requires NoOffer(m, me.sent) && Onto(m, m')
    ensures NoOffer(m', Step(me, peer, act).sent)
  {
    hide Act, Step, Waits, MovesBy, Receives;
    var sent := Step(me, peer, act).sent;
    forall j | 0 <= j < |sent| && sent[j].body.ContactPropose? ensures !Passable(m', sent[j]) {
      SentOf(me, peer, act, j);
      assert j < |me.sent| && !Passable(m, me.sent[j]);
    }
  }

  lemma AnswersNothing(peer: Side, me: Side, act: Action, n: NodeState, n': NodeState)
    requires ActsLike(peer.mem, me, act, Act(peer.mem, me, act))
    requires peer.mem.contact.Some? || NoOffer(peer.mem, me.sent)
    requires NoAnswer(n, peer.sent) && Onto(n, n')
    ensures NoAnswer(n', Step(peer, me, act).sent)
  {
    hide Act, Step, Waits, MovesBy;
    var sent := Step(peer, me, act).sent;
    forall j | 0 <= j < |sent| && sent[j].body.ContactAccept? ensures !Passable(n', sent[j]) {
      SentOf(peer, me, act, j);
      assert j < |peer.sent| && !Passable(n, peer.sent[j]);
    }
  }

  lemma StillNoAnswer(sent: Sent, n: NodeState, n': NodeState)
    requires Onto(n, n')
    ensures NoAnswer(n, sent) ==> NoAnswer(n', sent)
    ensures NoOffer(n, sent) ==> NoOffer(n', sent)
  {
  }

  lemma UnopenedTurn(r: seq<System>, turns: seq<Turn>, k: nat, first: bool, n: NodeState, m: NodeState,
                     n': NodeState, m': NodeState)
    requires Follows(r, turns) && k < |turns| && |r| == |turns| + 1
    requires ComesFrom(r, turns, k, first, n, n') && ComesFrom(r, turns, k, !first, m, m')
    requires var me, peer := Mine(r[k], first), Theirs(r[k], first);
             Unopened(me, n, peer, m) && Unopened(me, me.mem, peer, m) && Unopened(me, n, peer, peer.mem)
    ensures Unopened(Mine(r[k + 1], first), n', Theirs(r[k + 1], first), m')
  {
    hide Follows, Step, Enabled, Act, ActsLike, Kin, TransfersGrow, Onto, NoAnswer, NoOffer;
    var me, peer, act := Mine(r[k], first), Theirs(r[k], first), turns[k].act;
    ProposerWaits(r, turns, k, first, n, m, n');
    TurnTaken(r, turns, k, first);
    StillNoAnswer(peer.sent, n, n');
    StillNoAnswer(me.sent, m, m');
    if turns[k].first == first {
      ActLike(me.mem, peer, act);
      if m.contact.None? {
        OffersNothing(me, peer, act, m, m');
      }
    } else {
      ActLike(peer.mem, me, act);
      AnswersNothing(peer, me, act, n, n');
    }
  }

  lemma UnopenedTogether(me: Side, n: NodeState, peer: Side, m: NodeState)
    requires Behind(me.disk, me.mem) && Behind(peer.disk, peer.mem) && Holds(me, n) && Holds(peer, m)
    requires Unopened(me, me.disk, peer, peer.disk)
    ensures Unopened(me, n, peer, m)
  {
    assert forall e :: Passable(me.disk, e) <==> Passable(me.mem, e);
    assert forall e :: Passable(peer.disk, e) <==> Passable(peer.mem, e);
  }

  /** Whatever its schedule: a contact that cannot open on disk never opens. */
  lemma {:induction false} UnopenedStays(r: seq<System>, turns: seq<Turn>, j: nat, k: nat, first: bool,
                                         n: NodeState, m: NodeState)
    requires Follows(r, turns) && j <= k < |r|
    requires var me, peer := Mine(r[j], first), Theirs(r[j], first); Unopened(me, me.disk, peer, peer.disk)
    requires Holds(Mine(r[k], first), n) && Holds(Theirs(r[k], first), m)
    ensures Unopened(Mine(r[k], first), n, Theirs(r[k], first), m)
    decreases k
  {
    hide Follows, Unopened, ComesFrom, Behind;
    if j == k {
      SideBehind(r, turns, k, first);
      SideBehind(r, turns, k, !first);
      UnopenedTogether(Mine(r[k], first), n, Theirs(r[k], first), m);
    } else {
      Lengths(r, turns);
      var n1 := TurnMoves(r, turns, k - 1, first, n);
      var m1 := TurnMoves(r, turns, k - 1, !first, m);
      var me, peer := Mine(r[k - 1], first), Theirs(r[k - 1], first);
      UnopenedStays(r, turns, j, k - 1, first, n1, m1);
      UnopenedStays(r, turns, j, k - 1, first, me.mem, m1);
      UnopenedStays(r, turns, j, k - 1, first, n1, peer.mem);
      UnopenedTurn(r, turns, k - 1, first, n1, m1, n, m);
    }
  }

  // ----- it can still open -----

  /** What an acceptance says of the contact it answers. */
  lemma AcceptanceFits(me: Side, n: NodeState, peer: Side, m: NodeState, j: nat)
    requires Met(me, n, peer, m) && j < |peer.sent| && peer.sent[j].body.ContactAccept? && n.contact.Some?
    ensures peer.sent[j].body.contactId == n.contact.value.id && peer.sent[j].body.mySeed > 0
  {
    hide Met, Linked, Kept, P.Agree, P.LegStates, P.Locked, P.Pinned, P.Ordered, P.Distinct, P.Matched, P.Outcomes,
      P.Ahead;
    MetPair(me, n, peer, m);
    MetTurned(me, n, peer, m);
    MetPair(peer, m, me, n);
    assert P.Backs(CoreOf(m), peer.sent[j].body);
  }

  lemma AcceptanceActivates(me: Side, n: NodeState, peer: Side, m: NodeState, j: nat, ctx: Ctx)
    requires Met(me, n, peer, m) && j < |peer.sent| && peer.sent[j].body.ContactAccept? && AwaitsSeed(n)
    requires Validate(peer.sent[j], n.seen, n.lastSeq, ctx.now).Ok?
    ensures var r := ProcessInbound(n, peer.sent[j], ctx, 0); r.verdict.Ok? && ActiveAt(r.node)
  {
    hide Met, Good, SeedLeg, ApplySeed;
    AcceptanceFits(me, n, peer, m, j);
    MetGood(me, n, peer, m);
    SeedBooked(n, CoreOf(m), me.sent, peer.sent, ctx);
  }

  lemma OpensAfterAll(r: seq<System>, first: bool) returns (r': seq<System>)
    requires IsRun(r)
    requires var me, peer := Mine(Last(r), first), Theirs(Last(r), first);
             AwaitsSeed(me.mem) && !NoAnswer(me.mem, peer.sent)
    ensures Continues(r, r') && ActiveAt(Mine(Last(r'), first).disk)
  {
    hide Next, Init, Met, ProcessInbound, Continues, Passable;
    var me, peer := Mine(Last(r), first), Theirs(Last(r), first);
    var j :| 0 <= j < |peer.sent| && peer.sent[j].body.ContactAccept? && Passable(me.mem, peer.sent[j]);
    var ctx := Ctx(peer.sent[j].created, Uuid(""), Uuid(""));
    PassesNow(me.mem, peer.sent[j]);
    MetLast(r, first, me.mem, peer.mem);
    AcceptanceActivates(me, me.mem, peer, peer.mem, j, ctx);
    r' := Extend(r, first, Receive(j, ctx, 0));
  }

  lemma OfferFits(me: Side, n: NodeState, peer: Side, m: NodeState, i: nat)
    requires Met(me, n, peer, m) && i < |peer.sent| && peer.sent[i].body.ContactPropose?
    ensures peer.sent[i].body.mySeed > 0
  {
    hide Met, Linked, Kept, P.Agree, P.LegStates, P.Locked, P.Pinned, P.Ordered, P.Distinct, P.Pairing;
    MetTurned(me, n, peer, m);
    MetPair(peer, m, me, n);
    assert P.Backs(CoreOf(m), peer.sent[i].body);
  }

  /** A node without a contact that accepts one sends its acceptance, under the next number. */
  lemma OfferIsTaken(me: Side, n: NodeState, peer: Side, m: NodeState, i: nat, ctx: Ctx)
    requires Met(me, n, peer, m) && i < |peer.sent| && peer.sent[i].body.ContactPropose? && n.contact.None?
    requires Validate(peer.sent[i], n.seen, n.lastSeq, ctx.now).Ok?
    ensures var r := ProcessInbound(n, peer.sent[i], ctx, 1);
            && r.out == Some(Envelope(ctx.envelopeId, |me.sent|
                                      + 1, ctx.now, ContactAccept(peer.sent[i].body.contactId, 1)))
            && r.node.outSeq == n.outSeq + 1
  {
    hide Met, Good, SeedLeg, ApplySeed;
    OfferFits(me, n, peer, m, i);
    MetGood(me, n, peer, m);
    OutSeqIs(n, CoreOf(m), me.sent, peer.sent);
    SeedingFits(n, CoreOf(m), me.sent, peer.sent, ctx, 1);
  }

  lemma AnswersAfterAll(r: seq<System>, first: bool) returns (r': seq<System>)
    requires IsRun(r)
    requires var me, peer := Mine(Last(r), first), Theirs(Last(r), first);
             peer.mem.contact.None? && !NoOffer(peer.mem, me.sent)
    ensures Continues(r, r') && Mine(Last(r'), first) == Mine(Last(r), first)
    ensures !NoAnswer(Mine(Last(r), first).mem, Theirs(Last(r'), first).sent)
  {
    hide Next, Init, Met, ProcessInbound, Continues, Validate;
    var me, peer := Mine(Last(r), first), Theirs(Last(r), first);
    var i :| 0 <= i < |me.sent| && me.sent[i].body.ContactPropose? && Passable(peer.mem, me.sent[i]);
    var unseen := Unseen(me.mem.seen);
    var ctx := Ctx(me.sent[i].created, unseen, Uuid(""));
    PassesNow(peer.mem, me.sent[i]);
    MetLast(r, !first, peer.mem, me.mem);
    OfferIsTaken(peer, peer.mem, me, me.mem, i, ctx);
    MetLast(r, first, me.mem, peer.mem);
    WithinSent(me, me.mem, peer, peer.mem);
    r' := Extend(r, !first, Receive(i, ctx, 1));
    ContinuesRun(r, r');
    var sent := Theirs(Last(r'), first).sent;
    assert sent[|peer.sent|].body.ContactAccept? && Passable(me.mem, sent[|peer.sent|]);
  }

  /** A pending contact that can open does in some continuation. */
  lemma CanOpen(r: seq<System>, first: bool) returns (r': seq<System>)
    requires IsRun(r)
    requires var me, peer := Mine(Last(r), first), Theirs(Last(r), first);
             AwaitsSeed(me.disk) && !Unopened(me, me.disk, peer, peer.disk)
    ensures Continues(r, r') && ActiveAt(Mine(Last(r'), first).disk)
  {
    hide Next, Init, Continues, NoAnswer, NoOffer;
    var me, peer := Mine(Last(r), first), Theirs(Last(r), first);
    var r1 := Restarts(r, first);
    ContinuesRun(r, r1);
    var r2 := Restarts(r1, !first);
    ContinuesOn(r, r1, r2);
    ContinuesRun(r1, r2);
    SameOffers(me.disk, Restored(me.disk), peer.sent);
    SameOffers(peer.disk, Restored(peer.disk), me.sent);
    var r3 := r2;
    if NoAnswer(me.disk, peer.sent) {
      r3 := AnswersAfterAll(r2, first);
      ContinuesOn(r, r2, r3);
      ContinuesRun(r2, r3);
    }
    r' := OpensAfterAll(r3, first);
    ContinuesOn(r, r3, r');
  }

  lemma SameOffers(d: NodeState, m: NodeState, sent: Sent)
    requires d.seen == m.seen && d.lastSeq == m.lastSeq
    ensures NoAnswer(d, sent) <==> NoAnswer(m, sent)
    ensures NoOffer(d, sent) <==> NoOffer(m, sent)
  {
    assert forall e :: Passable(d, e) <==> Passable(m, e);
  }

  /** A contact that its proposer has pending stays pending in every continuation exactly if no
      acceptance of it is left to process and none will be sent, because the peer has a contact or
      the proposal was processed or overtaken.  Otherwise some continuation activates it. */
  lemma PendingForever(r: seq<System>, first: bool)
    requires IsRun(r) && AwaitsSeed(Mine(Last(r), first).disk)
    ensures var me, peer := Mine(Last(r), first), Theirs(Last(r), first);
            (forall r' :: Continues(r, r') ==> AwaitsSeed(Mine(Last(r'), first).disk))
            <==> Unopened(me, me.disk, peer, peer.disk)
  {
    hide Next, Init, Unopened, Continues;
    var me, peer := Mine(Last(r), first), Theirs(Last(r), first);
    forall r' | Continues(r, r') ensures r' != [] {
      ContinuesRun(r, r');
    }
    if Unopened(me, me.disk, peer, peer.disk) {
      forall r' | Continues(r, r') ensures AwaitsSeed(Mine(Last(r'), first).disk) {
        UnopenedAlways(r, r', first);
      }
    } else {
      var r' := CanOpen(r, first);
      assert ActiveAt(Mine(Last(r'), first).disk);
    }
  }

  lemma UnopenedAlways(r: seq<System>, r': seq<System>, first: bool)
    requires Continues(r, r')
    requires var me, peer := Mine(Last(r), first), Theirs(Last(r), first); Unopened(me, me.disk, peer, peer.disk)
    ensures AwaitsSeed(Mine(Last(r'), first).disk)
  {
    hide Next, Init, Follows, NoAnswer, NoOffer;
    var turns := RunFollows(r');
    UnopenedStays(r', turns, |r| - 1, |r'| - 1, first, Mine(Last(r'), first).disk, Theirs(Last(r'), first).disk);
  }
}
