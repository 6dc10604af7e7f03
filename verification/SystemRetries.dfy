/** What a request gets that comes again later in a run. */
module SystemRetries {
  import opened Wrappers
  import opened ChannelHistory
  import opened Messages
  import opened NodeSpec
  import opened NodeInvariant
  import opened NodeRecords
  import opened NodeSteps
  import opened NodeGrowth
  import opened NodeFrames
  import opened Systems
  import opened SystemInvariant
  import opened SystemRuns
  import opened SystemSafety
  import opened SystemPromises
  import opened SystemTheorems
  import opened SystemTurns
  import opened SystemOutcomes
  import P = ProtocolInvariant

  // ----- a commit that comes again -----

  /** The two states one side holds agree on what is paid out and on the adjustments under way. */
  lemma HeldTogether(me: Side, n: NodeState, n': NodeState, t: Id)
    requires Behind(me.disk, me.mem) && Holds(me, n) && Holds(me, n')
    ensures PaidOutAt(n, t) ==> PaidOutAt(n', t) && n'.transfers[t] == n.transfers[t]
    ensures SameAdjusts(n, n') && n'.lastSeq == n.lastSeq
  {
    assert t in me.disk.transfers.Keys <==> t in me.mem.transfers.Keys;
  }

  lemma SideBehind(r: seq<System>, turns: seq<Turn>, k: nat, first: bool)
    requires Follows(r, turns) && k < |r|
    ensures var me := Mine(r[k], first); Behind(me.disk, me.mem)
  {
    hide Follows, IsRun, AllInStep, NodeOk, PostedOk, Behind;
    FollowsIsRun(r, turns);
    RunOk(r, k);
  }

  /** A payout stands: later in the run, in memory and on disk, it is still the same record. */
  lemma {:induction false} PayoutStands(r: seq<System>, turns: seq<Turn>, j: nat, k: nat, first: bool,
                                        n: NodeState, n': NodeState, t: Id)
    requires Follows(r, turns) && j <= k < |r|
    requires Holds(Mine(r[j], first), n) && Holds(Mine(r[k], first), n') && PaidOutAt(n, t)
    ensures PaidOutAt(n', t) && n'.transfers[t] == n.transfers[t]
    decreases k
  {
    hide Follows, AdjustsLike, Clock, Behind;
    if j == k {
      SideBehind(r, turns, k, first);
      HeldTogether(Mine(r[k], first), n, n', t);
    } else {
      Lengths(r, turns);
      var m := TurnFrame(r, turns, k - 1, first, n');
      PayoutStands(r, turns, j, k - 1, first, n, m, t);
      StillThere(m, n', Clock(turns[k - 1].act), t);
      Advanced(m, n', Clock(turns[k - 1].act), t);
    }
  }

  lemma StillThere(m: NodeState, n: NodeState, clock: Option<int>, t: Id)
    requires t in m.transfers && (Kin(m, n) || AdvancesBy(m, n, clock))
    ensures t in n.transfers
  {
    hide Advance;
    assert t in m.transfers.Keys;
  }

  /** A commit that comes again gets the receipt its payout left, however often and however much
      later it comes, across restarts, and changes nothing: the payout happened once. */
  lemma CommitComesAgain(r: seq<System>, j: nat, k: nat, first: bool, n: NodeState, n': NodeState, t: Id, ctx: Ctx)
    requires IsRun(r) && j <= k < |r|
    requires Holds(Mine(r[j], first), n) && Holds(Mine(r[k], first), n') && PaidOutAt(n, t)
    ensures HoldsReceipt(n, t)
    ensures HandleTransferCommit(n', TransferCommit(t), ctx) == Outcome(n', n.transfers[t].receipt)
    ensures n.transfers[t].receipt.value in Mine(r[k], first).sent
  {
    hide IsRun, Follows, Met, HandleTransferCommit, Good;
    var turns := RunFollows(r);
    PayoutStands(r, turns, j, k, first, n, n', t);
    ReceiptIsKept(r, turns, j, first, n, t);
    var me, peer := Mine(r[k], first), Theirs(r[k], first);
    MetAt(r, turns, k, first, n', peer.mem);
    MetGood(me, n', peer, peer.mem);
    CommitOutcome(n', CoreOf(peer.mem), me.sent, peer.sent, t, ctx);
    StoredAnswers(n', CoreOf(peer.mem), me.sent, peer.sent);
  }

  // ----- an adjustment that comes again -----

  lemma PeerSentGrows(r: seq<System>, turns: seq<Turn>, k: nat, first: bool)
    requires Follows(r, turns) && k < |turns|
    ensures |r| == |turns| + 1 && Mine(r[k], first).sent <= Mine(r[k + 1], first).sent
  {
    Lengths(r, turns);
    FollowsIsRun(r, turns);
    hide Follows, IsRun, Grows;
    RunGrows(r, k, k + 1);
  }

  /** What a message of the peer that was already processed, or not yet, says here. */
  lemma AdjustFacts(me: Side, n: NodeState, peer: Side, m: NodeState, i: nat)
    requires Met(me, n, peer, m) && i < |peer.sent| && peer.sent[i].body.ReserveAdjust?
    ensures n.lastSeq <= |peer.sent|
    ensures n.lastSeq <= i ==> peer.sent[i].body.adjustId !in AppliedAt(n)
    ensures forall i' :: 0 <= i' < |peer.sent| && i' != i ==> !P.SameOffer(peer.sent[i'].body, peer.sent[i].body)
    ensures AppliedAt(n) != {} ==> History(n) != [] && n.contact.value.opSeq + 1 == |History(n)|
  {
    hide Met, Kept, Logged, P.Locked, P.LegStates, P.Pinned, P.Backed, P.Ordered, P.Pairing, P.Agree, P.Quiet,
      P.Acceptable, P.Adjusting, P.Turned, P.Undecided, P.Current, P.Caught, Reserved;
    MetGood(me, n, peer, m);
    assert P.Flow(CoreOf(m), CoreOf(n), peer.sent, me.sent);
    assert CoreOf(n).applied == AppliedAt(n);
    assert P.Distinct(peer.sent);
  }

  /** A message whose adjustment is applied was there before the last turn. */
  lemma KnownBefore(r: seq<System>, turns: seq<Turn>, k: nat, first: bool, m: NodeState, n: NodeState, i: nat)
    requires Follows(r, turns) && k < |turns| && Holds(Mine(r[k], first), m) && Holds(Mine(r[k + 1], first), n)
    requires Kin(m, n) || turns[k].first == first
    requires var sy := Theirs(r[k + 1], first).sent;
             i < |sy| && sy[i].body.ReserveAdjust? && sy[i].body.adjustId in AppliedAt(n)
    ensures i < |Theirs(r[k], first).sent| && Theirs(r[k], first).sent[i] == Theirs(r[k + 1], first).sent[i]
  {
    hide Follows, Step, Enabled, Met;
    Lengths(r, turns);
    TurnTaken(r, turns, k, first);
    PeerSentGrows(r, turns, k, !first);
    var peer, peer' := Theirs(r[k], first), Theirs(r[k + 1], first);
    MetAt(r, turns, k + 1, first, n, peer'.mem);
    AdjustFacts(Mine(r[k + 1], first), n, peer', peer'.mem, i);
    MetAt(r, turns, k, first, m, peer.mem);
    WithinSent(Mine(r[k], first), m, peer, peer.mem);
  }

  lemma WithinSent(me: Side, n: NodeState, peer: Side, m: NodeState)
    requires Met(me, n, peer, m)
    ensures n.lastSeq <= |peer.sent|
  {
    hide Met, Kept, Logged, Linked, P.Self, P.Pairing, P.Agree, P.Unprocessed, P.Quiet, P.Acceptable, P.Adjusting,
      P.Turned, P.Undecided, P.Current, P.Caught;
    MetGood(me, n, peer, m);
    assert P.Flow(CoreOf(m), CoreOf(n), peer.sent, me.sent);
  }

  /** The turn that first applied an adjustment led past its operation number. */
  lemma FirstMirrored(r: seq<System>, turns: seq<Turn>, k: nat, first: bool, m: NodeState, n: NodeState, i: nat)
    requires Follows(r, turns) && k < |turns| && Holds(Mine(r[k], first), m) && Holds(Mine(r[k + 1], first), n)
    requires turns[k].first == first && AdjustsLike(m, Theirs(r[k], first), turns[k].act, n)
    requires var sy := Theirs(r[k + 1], first).sent;
             && i < |sy| && sy[i].body.ReserveAdjust?
             && sy[i].body.adjustId in AppliedAt(n) && sy[i].body.adjustId !in AppliedAt(m)
    ensures Theirs(r[k + 1], first).sent[i].body.opSeq + 1 < |History(n)|
  {
    hide Follows, Step, Enabled, Met, ReleaseIfBusyExpired;
    Lengths(r, turns);
    TurnTaken(r, turns, k, first);
    var peer' := Theirs(r[k + 1], first);
    MetAt(r, turns, k + 1, first, n, peer'.mem);
    AdjustFacts(Mine(r[k + 1], first), n, peer', peer'.mem, i);
    assert MirrorsAt(m, peer'.sent[turns[k].act.i].body, n);
  }

  /** Whatever its schedule: an adjustment that was applied carries an operation number below the
      current one, so the same proposal is stale from then on. */
  lemma {:induction false} AppliedIsPast(r: seq<System>, turns: seq<Turn>, k: nat, first: bool, n: NodeState, i: nat)
    requires Follows(r, turns) && k < |r| && Holds(Mine(r[k], first), n)
    requires var sy := Theirs(r[k], first).sent;
             i < |sy| && sy[i].body.ReserveAdjust? && sy[i].body.adjustId in AppliedAt(n)
    ensures Theirs(r[k], first).sent[i].body.opSeq + 1 < |History(n)|
  {
    hide Follows, Clock, AdvancesBy, AdjustsLike;
    if k == 0 {
      NothingAtFirst(r, turns, first, n);
    } else {
      Lengths(r, turns);
      var m := TurnFrame(r, turns, k - 1, first, n);
      KnownBefore(r, turns, k - 1, first, m, n, i);
      if Theirs(r[k], first).sent[i].body.adjustId in AppliedAt(m) {
        AppliedIsPast(r, turns, k - 1, first, m, i);
      } else {
        FirstMirrored(r, turns, k - 1, first, m, n, i);
      }
    }
  }

  /** The same adjustment proposed against another operation number. */
  function Renumbered(b: Body, k: int): Body
    requires b.ReserveAdjust?
  {
    Body.ReserveAdjust(b.contactId, k, b.adjustId, b.myDelta)
  }

  /** An idle, open node answers an adjustment it already applied by its number and delta alone. */
  lemma AppliedAgain(n: NodeState, b: Body, ctx: Ctx)
    requires b.ReserveAdjust? && OpenAndIdle(n, ctx.now) && b.adjustId in AppliedAt(n)
    ensures var n1 := ReleaseIfBusyExpired(n, ctx.now);
            HandleReserveAdjust(n, b, ctx) ==
            if b.opSeq != n.contact.value.opSeq then SendError(n1, ctx, StaleOp)
            else if b.myDelta == 0 then SendError(n1, ctx, InvalidPayload)
            else Send(n1, ctx, ReserveAccept(n.contact.value.id, b.adjustId))
  {
    hide ApplyAdjust, ExpireIfDue;
    ReleaseOpSeq(n, ctx.now);
    if n.contact.value.busy && n.contact.value.busyTransfer.Some? {
      ExpireKeepsContact(n, n.contact.value.busyTransfer.value, ctx.now);
    }
  }

  lemma ExpireKeepsContact(n: NodeState, id: Id, now: int)
    ensures var n' := ExpireIfDue(n, id, now);
            (n.contact.Some? <==> n'.contact.Some?)
            && (n.contact.Some? ==> Unlocked(n'.contact.value) == Unlocked(n.contact.value))
  {
  }

  /** In every reachable state where the contact is open and idle: an applied adjustment proposed
      again is acknowledged again exactly if it names the current operation number, and changes
      nothing; with the number it first came with it is stale, from then on and for good. */
  lemma AdjustmentComesAgain(me: Side, n: NodeState, peer: Side, m: NodeState, i: nat, k: int, ctx: Ctx)
    requires Met(me, n, peer, m) && i < |peer.sent| && peer.sent[i].body.ReserveAdjust?
    requires peer.sent[i].body.adjustId in AppliedAt(n) && OpenAndIdle(n, ctx.now)
    ensures var b := Renumbered(peer.sent[i].body, k);
            var o := HandleReserveAdjust(n, b, ctx);
            && o.node.book == n.book && o.node.transfers == ReleaseIfBusyExpired(n, ctx.now).transfers
            && Unlocked(o.node.contact.value) == Unlocked(n.contact.value) && o.out.Some?
            && (o.out.value.body == ReserveAccept(n.contact.value.id, b.adjustId) <==>
                 k == n.contact.value.opSeq && b.myDelta != 0)
            && (k == peer.sent[i].body.opSeq ==> o.out.value.body == ErrorReply(StaleOp))
  {
    hide Met, HandleReserveAdjust, ExpireIfDue;
    var b := Renumbered(peer.sent[i].body, k);
    AppliedAgain(n, b, ctx);
    PastNow(me, n, peer, m, i);
    ReleasedBook(n, ctx.now);
  }

  lemma ReleasedBook(n: NodeState, now: int)
    requires n.contact.Some?
    ensures var n' := ReleaseIfBusyExpired(n, now);
            n'.book == n.book && n'.contact.Some? && Unlocked(n'.contact.value) == Unlocked(n.contact.value)
  {
  }

  lemma PastNow(me: Side, n: NodeState, peer: Side, m: NodeState, i: nat)
    requires Met(me, n, peer, m) && i < |peer.sent| && peer.sent[i].body.ReserveAdjust?
    requires peer.sent[i].body.adjustId in AppliedAt(n)
    ensures n.contact.Some? && peer.sent[i].body.opSeq < n.contact.value.opSeq
  {
    AdjustFacts(me, n, peer, m, i);
    hide IsRun, Follows, AppliedAt;
    var r: seq<System>, k: nat :| IsRun(r) && k < |r| && (r[k] == System(me, peer) || r[k] == System(peer, me));
    var turns := RunFollows(r);
    AppliedIsPast(r, turns, k, r[k] == System(me, peer), n, i);
  }
}
