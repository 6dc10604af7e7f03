/** Which waiting states end: a committed payment, and a contact that is still pending, wait for
    ever exactly if the one message that would end it cannot come any more. */
module SystemFutures {
  import opened Wrappers
  import opened ChannelHistory
  import opened Ledgers
  import opened TransferStates
  import opened Messages
  import opened NodeSpec
  import opened NodeInvariant
  import opened NodeRecords
  import opened NodeSteps
  import opened NodeOpenSteps
  import opened NodeCommitSteps
  import opened NodeInbound
  import opened NodeGrowth
  import opened NodeFrames
  import opened NodeTriggers
  import opened Systems
  import opened SystemInvariant
  import opened SystemRuns
  import opened SystemSafety
  import opened SystemPromises
  import opened SystemTheorems
  import opened SystemTurns
  import opened SystemOutcomes
  import opened SystemRetries
  import P = ProtocolInvariant

  // ----- what one action moves -----

  /** The gate still lets an envelope pass, at some clock. */
  predicate Passable(n: NodeState, env: Envelope) { env.seqNo > n.lastSeq && env.id !in n.seen }

  predicate Receives(n: NodeState, peer: Side, act: Action) {
    act.Receive? && act.i < |peer.sent| && Passable(n, peer.sent[act.i])
  }

  /** What an action may settle or activate, and what a newly sent answer says of it. */
  ghost predicate ActsLike(n: NodeState, peer: Side, act: Action, r: Acted) {
    && Onto(n, r.node)
    && (Waits(n, r.node) || (Receives(n, peer, act) && MovesBy(n, peer.sent[act.i].body, r.node)))
    && (r.out.Some? && r.node.outSeq != n.outSeq ==>
         && (Answering(r.out.value.body) ==>
              Receives(n, peer, act) && Answers(n, peer.sent[act.i].body, Outcome(r.node, r.out)))
         && (r.out.value.body.ContactPropose? ==> n.contact.None?))
  }

  lemma AsksLike(n: NodeState, peer: Side, act: Action, d: Done)
    requires OnlyAsks(n, d)
    ensures ActsLike(n, peer, act, FromDone(d))
  {
    hide MovesBy, Answers, Receives;
  }

  lemma InboundLike(n: NodeState, peer: Side, act: Action)
    requires act.Receive? && act.i < |peer.sent|
    ensures var r := ProcessInbound(n, peer.sent[act.i], act.ctx, act.autoSeed);
            ActsLike(n, peer, act, Acted(r.node, r.out, r.verdict.Ok?))
  {
    hide Route;
    var env := peer.sent[act.i];
    if Validate(env, n.seen, n.lastSeq, act.ctx.now).Ok? {
      RouteMoves(n, env.body, act.ctx, act.autoSeed);
      var o := Route(n, env.body, act.ctx, act.autoSeed);
      ProcessedMoves(n, o, env);
    }
  }

  lemma ProcessedMoves(n: NodeState, o: Outcome, env: Envelope)
    requires MovesBy(n, env.body, o.node) && Answers(n, env.body, o)
    ensures var n' := Processed(o.node, env, o.out);
            && MovesBy(n, env.body, n') && Answers(n, env.body, Outcome(n', o.out)) && n'.outSeq == o.node.outSeq
    ensures o.node.outSeq != n.outSeq && o.out.Some? ==> !o.out.value.body.ContactPropose?
  {
  }

  lemma ActLike(n: NodeState, peer: Side, act: Action)
    ensures ActsLike(n, peer, act, Act(n, peer, act))
  {
    hide OpenContact, StartTransfer, AbortTransfer, AdjustReserve, CloseContact, Sweep, ProcessInbound, Appended,
      ActsLike, OnlyAsks;
    match act
    case Open(ctx, seed, id) => OpenCloseAsk(n, ctx, seed, id); AsksLike(n, peer, act, OpenContact(n, ctx, seed, id));
    case Start(ctx, from, to, src, id) =>
      StartAsks(n, ctx, from, to, src, id);
      AsksLike(n, peer, act, StartTransfer(n, ctx, from, to, src, id));
    case Abort(ctx, id) => AbortAsks(n, ctx, id); AsksLike(n, peer, act, AbortTransfer(n, ctx, id));
    case Adjust(ctx, delta, id) => AdjustAsks(n, ctx, delta, id); AsksLike(n, peer, act,
                                                                           AdjustReserve(n, ctx, delta, id));
    case Close(ctx) => OpenCloseAsk(n, ctx, 0, Uuid("")); AsksLike(n, peer, act, CloseContact(n, ctx));
    case SweepAll(ids, now) => SweepWaits(n, ids, now); QuietLike(n, peer, act, Sweep(n, ids, now));
    case Receive(i, ctx, autoSeed) =>
      if i < |peer.sent| {
        InboundLike(n, peer, act);
      } else {
        QuietLike(n, peer, act, n);
      }
    case Check(j) => QuietLike(n, peer, act, Act(n, peer, act).node);
    case _ => QuietLike(n, peer, act, Act(n, peer, act).node);
  }

  lemma QuietLike(n: NodeState, peer: Side, act: Action, n': NodeState)
    requires Waits(n, n')
    ensures forall stored :: ActsLike(n, peer, act, Acted(n', None, stored))
  {
    hide MovesBy, Answers, Receives;
  }

  // ----- turns -----

  /** Where one held state came from: it is the same, or an action of this side made it. */
  ghost predicate ComesFrom(r: seq<System>, turns: seq<Turn>, k: nat, first: bool, n: NodeState, n': NodeState)
    requires k < |turns| && k < |r|
  {
    && TransfersGrow(n, n') && ContactGrows(n, n') && Onto(n, n')
    && (Kin(n, n')
        || (turns[k].first == first
            && ActsLike(n, Theirs(r[k], first), turns[k].act, Act(n, Theirs(r[k], first), turns[k].act))
            && n' == Act(n, Theirs(r[k], first), turns[k].act).node))
  }

  lemma TurnMoves(r: seq<System>, turns: seq<Turn>, k: nat, first: bool, n': NodeState) returns (n: NodeState)
    requires Follows(r, turns) && k < |turns| && Holds(Mine(r[k + 1], first), n')
    ensures |r| == |turns| + 1 && Holds(Mine(r[k], first), n) && ComesFrom(r, turns, k, first, n, n')
  {
    hide Follows, Step, Enabled, Act, ActsLike, Good, Met, Numbered, Grows, TransfersGrow, ContactGrows;
    Lengths(r, turns);
    TurnTaken(r, turns, k, first);
    var me, peer, act := Mine(r[k], first), Theirs(r[k], first), turns[k].act;
    if turns[k].first == first {
      n := Origin(me, peer, act, n');
      if n == me.mem && n' == Act(me.mem, peer, act).node {
        MetAt(r, turns, k, first, me.mem, peer.mem);
        MetGood(me, me.mem, peer, peer.mem);
        OutSeqIs(peer.mem, CoreOf(me.mem), peer.sent, me.sent);
        DrawsNew(me, peer, act);
        ActLike(me.mem, peer, act);
        ActGrows(me.mem, CoreOf(peer.mem), me.sent, peer, act);
        GrowsParts(n, n');
        LikeOnto(n, peer, act);
      }
    } else {
      n := n';
      SameOrigin(n);
    }
  }

  lemma GrowsParts(n: NodeState, n': NodeState)
    requires Grows(n, n')
    ensures TransfersGrow(n, n') && ContactGrows(n, n')
  {
    hide TransfersGrow, ContactGrows;
  }

  lemma LikeOnto(n: NodeState, peer: Side, act: Action)
    requires ActsLike(n, peer, act, Act(n, peer, act))
    ensures Onto(n, Act(n, peer, act).node)
  {
    hide Act, MovesBy, Waits, Receives, Answers;
  }

  lemma SameOrigin(n: NodeState)
    ensures Kin(n, n) && TransfersGrow(n, n) && ContactGrows(n, n) && Onto(n, n)
  {
  }

  lemma Origin(me: Side, peer: Side, act: Action, n': NodeState) returns (n: NodeState)
    requires Holds(Step(me, peer, act), n')
    ensures Holds(me, n)
    ensures (Kin(n, n') && TransfersGrow(n, n') && ContactGrows(n, n') && Onto(n, n'))
            || (n == me.mem && n' == Act(me.mem, peer, act).node)
  {
    hide Act, RecordRoot;
    if act.Restart? {
      n := me.disk;
      RestoredOrigin(n);
    } else if act.Post? {
      n := n';
    } else if n' == Act(me.mem, peer, act).node {
      n := me.mem;
    } else {
      n := n';
    }
  }

  lemma RestoredOrigin(n: NodeState)
    ensures var n' := Restored(n); Kin(n, n') && TransfersGrow(n, n') && ContactGrows(n, n') && Onto(n, n')
  {
  }

  // ----- messages still to come -----

  /** A message with this body can still be processed. */
  ghost predicate Coming(n: NodeState, sent: Sent, b: Body) {
    exists j :: 0 <= j < |sent| && sent[j].body == b && Passable(n, sent[j])
  }

  /** What stood in the log stays there, and what is new was answered or asked in this turn. */
  lemma SentOf(me: Side, peer: Side, act: Action, j: nat)
    requires j < |Step(me, peer, act).sent|
    ensures var r := Act(me.mem, peer, act);
            || (j < |me.sent| && Step(me, peer, act).sent[j] == me.sent[j])
            || (r.out == Some(Step(me, peer, act).sent[j]) && r.node.outSeq != me.mem.outSeq)
  {
    hide Act;
  }

  lemma NothingNew(me: Side, peer: Side, act: Action, n: NodeState, n': NodeState, b: Body)
    requires !Coming(n, me.sent, b) && Onto(n, n')
    requires var r := Act(me.mem, peer, act); !(r.out.Some? && r.node.outSeq != me.mem.outSeq && r.out.value.body == b)
    ensures !Coming(n', Step(me, peer, act).sent, b)
  {
    hide Act, Step;
    var sent := Step(me, peer, act).sent;
    forall j | 0 <= j < |sent| && sent[j].body == b ensures !Passable(n', sent[j]) {
      SentOf(me, peer, act, j);
      assert j < |me.sent| && !Passable(n, me.sent[j]);
    }
  }

  lemma StillNothing(sent: Sent, n: NodeState, n': NodeState, b: Body)
    requires !Coming(n, sent, b) && Onto(n, n')
    ensures !Coming(n', sent, b)
  {
    forall j | 0 <= j < |sent| && sent[j].body == b ensures !Passable(n', sent[j]) {
      assert !Passable(n, sent[j]);
    }
  }

  // ----- a committed payment -----

  /** The payment is committed, and what would settle it cannot come any more: the payee expired
      it, or its commit was overtaken, or it was paid out and the receipt was overtaken. */
  ghost predicate Lost(me: Side, n: NodeState, peer: Side, m: NodeState, t: Id) {
    && StateOf(n, t) == Some(Committed) && n.transfers[t].outgoing
    && match StateOf(m, t)
       case Some(Accepted) => !Coming(m, me.sent, TransferCommit(t))
       case Some(Settled) => !Coming(n, peer.sent, TransferReceipt(t))
       case _ => true
  }

  /** A receipt that was sent shows a payout. */
  lemma ReceiptIsBacked(me: Side, n: NodeState, peer: Side, m: NodeState, j: nat)
    requires Met(me, n, peer, m) && j < |peer.sent| && peer.sent[j].body.TransferReceipt?
    ensures StateOf(m, peer.sent[j].body.transferId) == Some(Settled)
  {
    hide Met, Linked, Kept, P.Pairing, P.Agree, P.LegStates, P.Local, P.Ordered, P.Distinct;
    MetPair(me, n, peer, m);
    var t := peer.sent[j].body.transferId;
    assert P.Backs(CoreOf(m), peer.sent[j].body);
    assert CoreOf(m).legs[t] == LegOf(m.transfers[t]);
  }

  /** The payer's own turn does not settle a lost payment. */
  lemma PayerWaits(r: seq<System>, turns: seq<Turn>, k: nat, first: bool, n: NodeState, m: NodeState,
                   n': NodeState, t: Id)
    requires Follows(r, turns) && k < |turns| && k < |r|
    requires Holds(Mine(r[k], first), n) && Holds(Theirs(r[k], first), m) && ComesFrom(r, turns, k, first, n, n')
    requires Lost(Mine(r[k], first), n, Theirs(r[k], first), m, t)
    ensures StateOf(n', t) == Some(Committed) && n'.transfers[t].outgoing
  {
    hide Follows, Met, Act, Answers, ContactGrows, Passable;
    var me, peer, act := Mine(r[k], first), Theirs(r[k], first), turns[k].act;
    MetAt(r, turns, k, first, n, m);
    if StateOf(n', t) == Some(Settled) {
      assert peer.sent[act.i].body == TransferReceipt(t);
      ReceiptIsBacked(me, n, peer, m, act.i);
    }
  }

  /** The payee's state of a lost payment: expired for good, paid out for good, or still waiting. */
  lemma PayeeWaits(r: seq<System>, turns: seq<Turn>, k: nat, first: bool, n: NodeState, m: NodeState,
                   m': NodeState, t: Id)
    requires Follows(r, turns) && k < |turns| && k < |r|
    requires Holds(Mine(r[k], first), n) && Holds(Theirs(r[k], first), m) && ComesFrom(r, turns, k, !first, m, m')
    requires Lost(Mine(r[k], first), n, Theirs(r[k], first), m, t)
    ensures StateOf(m, t) == Some(Expired) ==> StateOf(m', t) == Some(Expired)
    ensures StateOf(m, t) == Some(Settled) ==> StateOf(m', t) == Some(Settled)
    ensures StateOf(m, t) == Some(Accepted) ==> StateOf(m', t) != Some(Settled)
    ensures StateOf(m, t) in {Some(Accepted), Some(Settled), Some(Expired)}
  {
    hide Follows, Met, Act, Answers, ContactGrows, Passable;
    var me, peer, act := Mine(r[k], first), Theirs(r[k], first), turns[k].act;
    MetAt(r, turns, k, first, n, m);
    OutcomesAgree(me, n, peer, m, t);
  }

  lemma NoCommitAgain(n: NodeState, peer: Side, act: Action, t: Id)
    requires ActsLike(n, peer, act, Act(n, peer, act)) && StateOf(n, t) == Some(Committed)
    ensures var r := Act(n, peer, act); !(r.out.Some? && r.node.outSeq != n.outSeq
                                          && r.out.value.body == TransferCommit(t))
  {
    hide Act, Waits, MovesBy, Onto, Passable;
  }

  lemma NoReceiptAgain(n: NodeState, peer: Side, act: Action, t: Id)
    requires ActsLike(n, peer, act, Act(n, peer, act)) && StateOf(n, t) == Some(Settled)
    ensures var r := Act(n, peer, act); !(r.out.Some? && r.node.outSeq != n.outSeq
                                          && r.out.value.body == TransferReceipt(t))
  {
    hide Act, Waits, MovesBy, Onto, Passable;
  }

  lemma LostTurn(r: seq<System>, turns: seq<Turn>, k: nat, first: bool, n: NodeState, m: NodeState,
                 n': NodeState, m': NodeState, t: Id)
    requires Follows(r, turns) && k < |turns| && |r| == |turns| + 1
    requires Holds(Mine(r[k], first), n) && Holds(Theirs(r[k], first), m)
    requires Holds(Mine(r[k + 1], first), n') && Holds(Theirs(r[k + 1], first), m')
    requires ComesFrom(r, turns, k, first, n, n') && ComesFrom(r, turns, k, !first, m, m')
    requires var me, peer := Mine(r[k], first), Theirs(r[k], first);
             && Lost(me, n, peer, m, t) && Lost(me, me.mem, peer, m, t)
             && (StateOf(m, t) == Some(Settled) ==> StateOf(peer.mem, t) == Some(Settled))
    ensures Lost(Mine(r[k + 1], first), n', Theirs(r[k + 1], first), m', t)
  {
    hide Follows, Met, Step, Enabled, Coming, Act, ActsLike, Kin, TransfersGrow, ContactGrows, Onto;
    var me, peer, act := Mine(r[k], first), Theirs(r[k], first), turns[k].act;
    PayerWaits(r, turns, k, first, n, m, n', t);
    PayeeWaits(r, turns, k, first, n, m, m', t);
    TurnTaken(r, turns, k, first);
    MetAt(r, turns, k + 1, first, n', m');
    OutcomesAgree(Mine(r[k + 1], first), n', Theirs(r[k + 1], first), m', t);
    if turns[k].first == first {
      ActLike(me.mem, peer, act);
      NoCommitAgain(me.mem, peer, act, t);
      if StateOf(m, t) == Some(Accepted) {
        NothingNew(me, peer, act, m, m', TransferCommit(t));
      } else if StateOf(m, t) == Some(Settled) {
        StillNothing(peer.sent, n, n', TransferReceipt(t));
      }
    } else {
      ActLike(peer.mem, me, act);
      if StateOf(m, t) == Some(Accepted) {
        StillNothing(me.sent, m, m', TransferCommit(t));
      } else if StateOf(m, t) == Some(Settled) {
        NoReceiptAgain(peer.mem, me, act, t);
        NothingNew(peer, me, act, n, n', TransferReceipt(t));
      }
    }
  }

  /** What is lost on disk is lost in memory too. */
  lemma LostTogether(me: Side, n: NodeState, peer: Side, m: NodeState, t: Id)
    requires Behind(me.disk, me.mem) && Behind(peer.disk, peer.mem) && Holds(me, n) && Holds(peer, m)
    requires Lost(me, me.disk, peer, peer.disk, t)
    ensures Lost(me, n, peer, m, t)
  {
    hide Coming;
    assert t in me.disk.transfers.Keys && t in me.mem.transfers.Keys;
    assert t in peer.disk.transfers.Keys <==> t in peer.mem.transfers.Keys;
    SameComing(me.disk, me.mem, peer.sent, TransferReceipt(t));
    SameComing(peer.disk, peer.mem, me.sent, TransferCommit(t));
  }

  lemma SameComing(d: NodeState, m: NodeState, sent: Sent, b: Body)
    requires d.seen == m.seen && d.lastSeq == m.lastSeq
    ensures Coming(d, sent, b) <==> Coming(m, sent, b)
  {
    assert forall e :: Passable(d, e) <==> Passable(m, e);
  }

  /** Whatever its schedule: what is lost on disk stays lost, in memory and on disk. */
  lemma {:induction false} LostStays(r: seq<System>, turns: seq<Turn>, j: nat, k: nat, first: bool,
                                     n: NodeState, m: NodeState, t: Id)
    requires Follows(r, turns) && j <= k < |r|
    requires var me, peer := Mine(r[j], first), Theirs(r[j], first); Lost(me, me.disk, peer, peer.disk, t)
    requires Holds(Mine(r[k], first), n) && Holds(Theirs(r[k], first), m)
    ensures Lost(Mine(r[k], first), n, Theirs(r[k], first), m, t)
    decreases k
  {
    hide Follows, Lost, ComesFrom, Behind;
    if j == k {
      SideBehind(r, turns, k, first);
      SideBehind(r, turns, k, !first);
      LostTogether(Mine(r[k], first), n, Theirs(r[k], first), m, t);
    } else {
      Lengths(r, turns);
      var n1 := TurnMoves(r, turns, k - 1, first, n);
      var m1 := TurnMoves(r, turns, k - 1, !first, m);
      var me, peer := Mine(r[k - 1], first), Theirs(r[k - 1], first);
      LostStays(r, turns, j, k - 1, first, n1, m1, t);
      LostStays(r, turns, j, k - 1, first, me.mem, m1, t);
      SettledTogether(r, turns, k - 1, !first, m1, t);
      LostTurn(r, turns, k - 1, first, n1, m1, n, m, t);
    }
  }

  lemma SettledTogether(r: seq<System>, turns: seq<Turn>, k: nat, first: bool, m: NodeState, t: Id)
    requires Follows(r, turns) && k < |r| && Holds(Mine(r[k], first), m)
    ensures StateOf(m, t) == Some(Settled) ==> StateOf(Mine(r[k], first).mem, t) == Some(Settled)
  {
    SideBehind(r, turns, k, first);
    hide Follows;
    var me := Mine(r[k], first);
    assert t in me.disk.transfers.Keys <==> t in me.mem.transfers.Keys;
  }

  // ----- continuing a run -----

  function Last(r: seq<System>): System
    requires r != []
  {
    r[|r| - 1]
  }

  /** A run that begins with r. */
  ghost predicate Continues(r: seq<System>, r': seq<System>) { r != [] && IsRun(r') && r <= r' }

  lemma ContinuesOn(r: seq<System>, r': seq<System>, r'': seq<System>)
    requires Continues(r, r') && Continues(r', r'')
    ensures Continues(r, r'')
  {
    hide Next, Init;
  }

  /** One more turn. */
  lemma Extend(r: seq<System>, first: bool, act: Action) returns (r': seq<System>)
    requires IsRun(r) && Enabled(Mine(Last(r), first), Theirs(Last(r), first), act)
    ensures Continues(r, r')
    ensures Mine(Last(r'), first) == Step(Mine(Last(r), first), Theirs(Last(r), first), act)
    ensures Theirs(Last(r'), first) == Theirs(Last(r), first)
  {
    hide Enabled, Step, Init;
    var s := Last(r);
    var s' := if first then System(Step(s.a, s.b, act), s.b) else System(s.a, Step(s.b, s.a, act));
    r' := r + [s'];
    assert Next(s, s') by {
      assert if first then StepsA(s, s', act) else StepsB(s, s', act);
    }
    forall k | 0 < k < |r'| ensures Next(r'[k - 1], r'[k]) {
      if k < |r| {
        assert Next(r[k - 1], r[k]);
      }
    }
  }

  /** Starting again from what was stored. */
  lemma Restarts(r: seq<System>, first: bool) returns (r': seq<System>)
    requires IsRun(r)
    ensures Continues(r, r')
    ensures var me := Mine(Last(r), first); Mine(Last(r'), first) == me.(mem := Restored(me.disk))
    ensures Theirs(Last(r'), first) == Theirs(Last(r), first)
  {
    hide Next, Init, Continues, Restored;
    r' := Extend(r, first, Restart);
  }

  lemma MetLast(r: seq<System>, first: bool, n: NodeState, m: NodeState)
    requires IsRun(r) && Holds(Mine(Last(r), first), n) && Holds(Theirs(Last(r), first), m)
    ensures Met(Mine(Last(r), first), n, Theirs(Last(r), first), m)
  {
    hide Next, Init;
    assert Last(r) == System(Last(r).a, Last(r).b);
  }

  /** An identifier longer than all of a set is none of them. */
  lemma {:induction false} Unseen(ids: set<Id>) returns (id: Id)
    ensures id !in ids && forall i :: i in ids ==> |i.text| < |id.text|
    decreases |ids|
  {
    if ids == {} {
      id := Uuid("");
    } else {
      var one :| one in ids;
      var other := Unseen(ids - {one});
      id := Uuid(seq(|other.text| + |one.text| + 1, i => 'x'));
    }
  }

  /** At the clock it was made by, an envelope that can pass does. */
  lemma PassesNow(n: NodeState, env: Envelope)
    requires Passable(n, env)
    ensures Validate(env, n.seen, n.lastSeq, env.created).Ok?
  {
  }

  // ----- settling after all -----

  lemma ReceiptSettles(me: Side, n: NodeState, peer: Side, m: NodeState, j: nat, ctx: Ctx)
    requires Met(me, n, peer, m) && j < |peer.sent| && peer.sent[j].body.TransferReceipt?
    requires Validate(peer.sent[j], n.seen, n.lastSeq, ctx.now).Ok?
    requires var t := peer.sent[j].body.transferId; StateOf(n, t) == Some(Committed) && n.transfers[t].outgoing
    ensures var r := ProcessInbound(n, peer.sent[j], ctx, 0);
            r.verdict.Ok? && StateOf(r.node, peer.sent[j].body.transferId) == Some(Settled)
  {
    hide Met, Good;
    MetGood(me, n, peer, m);
    GoodLinked(n, CoreOf(m), me.sent, peer.sent);
  }

  /** A receipt that can come settles the payment. */
  lemma SettlesAfterAll(r: seq<System>, first: bool, t: Id) returns (r': seq<System>)
    requires IsRun(r)
    requires var me, peer := Mine(Last(r), first), Theirs(Last(r), first);
             StateOf(me.mem, t) == Some(Committed) && me.mem.transfers[t].outgoing
               && Coming(me.mem, peer.sent, TransferReceipt(t))
    ensures Continues(r, r') && StateOf(Mine(Last(r'), first).disk, t) == Some(Settled)
  {
    hide Next, Init, Met, ProcessInbound, Continues, Passable;
    var me, peer := Mine(Last(r), first), Theirs(Last(r), first);
    var j :| 0 <= j < |peer.sent| && peer.sent[j].body == TransferReceipt(t) && Passable(me.mem, peer.sent[j]);
    var ctx := Ctx(peer.sent[j].created, Uuid(""), Uuid(""));
    PassesNow(me.mem, peer.sent[j]);
    MetLast(r, first, me.mem, peer.mem);
    ReceiptSettles(me, me.mem, peer, peer.mem, j, ctx);
    r' := Extend(r, first, Receive(j, ctx, 0));
  }

  /** What a payout sends: a new receipt, under the next number. */
  lemma PayoutSends(me: Side, n: NodeState, peer: Side, m: NodeState, i: nat, ctx: Ctx)
    requires Met(me, n, peer, m) && i < |peer.sent| && peer.sent[i].body.TransferCommit?
    requires Validate(peer.sent[i], n.seen, n.lastSeq, ctx.now).Ok?
    requires StateOf(n, peer.sent[i].body.transferId) == Some(Accepted)
    ensures var t := peer.sent[i].body.transferId;
            var r := ProcessInbound(n, peer.sent[i], ctx, 0);
            && r.out == Some(Envelope(ctx.envelopeId, |me.sent| + 1, ctx.now, TransferReceipt(t)))
            && r.node.outSeq == n.outSeq + 1
  {
    hide Met, Good, HandleTransferCommit;
    CommitFinds(me, n, peer, m, i);
    MetGood(me, n, peer, m);
    OutSeqIs(n, CoreOf(m), me.sent, peer.sent);
    CommitSends(n, CoreOf(m), me.sent, peer.sent, peer.sent[i].body.transferId, ctx);
  }

  lemma CommitSends(n: NodeState, y: P.Core, sx: Sent, sy: Sent, t: Id, ctx: Ctx)
    requires Good(n, y, sx, sy) && t in n.transfers && !n.transfers[t].outgoing && n.transfers[t].state.Accepted?
    ensures var o := HandleTransferCommit(n, TransferCommit(t), ctx);
            && o.out == Some(Envelope(ctx.envelopeId, n.outSeq + 1, ctx.now, TransferReceipt(t)))
            && o.node.outSeq == n.outSeq + 1
  {
    hide Good, SettleIncoming, SettledNode;
    GoodLinked(n, y, sx, sy);
    var book := SettleRuns(n, y, sx, sy, t, ctx);
    SettledOutSeq(n, t, book);
  }

  lemma SettledOutSeq(n: NodeState, t: Id, book: Book)
    requires t in n.transfers && n.contact.Some?
    ensures SettledNode(n, t, book).outSeq == n.outSeq && t in SettledNode(n, t, book).transfers
  {
    hide ApplyTransfer;
  }

  /** A commit that can come is paid out, and then its receipt can come. */
  lemma PaysOutAfterAll(r: seq<System>, first: bool, t: Id) returns (r': seq<System>)
    requires IsRun(r)
    requires var me, peer := Mine(Last(r), first), Theirs(Last(r), first);
             StateOf(peer.mem, t) == Some(Accepted) && Coming(peer.mem, me.sent, TransferCommit(t))
    ensures Continues(r, r') && Mine(Last(r'), first) == Mine(Last(r), first)
    ensures Coming(Mine(Last(r), first).mem, Theirs(Last(r'), first).sent, TransferReceipt(t))
  {
    hide Next, Init, Met, ProcessInbound, Continues, Validate;
    var me, peer := Mine(Last(r), first), Theirs(Last(r), first);
    var i :| 0 <= i < |me.sent| && me.sent[i].body == TransferCommit(t) && Passable(peer.mem, me.sent[i]);
    var unseen := Unseen(me.mem.seen);
    var ctx := Ctx(me.sent[i].created, unseen, Uuid(""));
    PassesNow(peer.mem, me.sent[i]);
    MetLast(r, !first, peer.mem, me.mem);
    PayoutSends(peer, peer.mem, me, me.mem, i, ctx);
    MetLast(r, first, me.mem, peer.mem);
    WithinSent(me, me.mem, peer, peer.mem);
    r' := Extend(r, !first, Receive(i, ctx, 0));
    ContinuesRun(r, r');
    var sent := Theirs(Last(r'), first).sent;
    assert sent[|peer.sent|].body == TransferReceipt(t) && Passable(me.mem, sent[|peer.sent|]);
  }

  /** A committed payment that is not lost can still be settled. */
  lemma CanSettle(r: seq<System>, first: bool, t: Id) returns (r': seq<System>)
    requires IsRun(r)
    requires var me, peer := Mine(Last(r), first), Theirs(Last(r), first);
             && StateOf(me.disk, t) == Some(Committed) && me.disk.transfers[t].outgoing
             && !Lost(me, me.disk, peer, peer.disk, t)
    ensures Continues(r, r') && StateOf(Mine(Last(r'), first).disk, t) == Some(Settled)
  {
    hide Next, Init, Met, Continues, Coming;
    var me, peer := Mine(Last(r), first), Theirs(Last(r), first);
    MetLast(r, first, me.disk, peer.disk);
    OutcomesAgree(me, me.disk, peer, peer.disk, t);
    var r1 := Restarts(r, first);
    ContinuesRun(r, r1);
    var r2 := Restarts(r1, !first);
    ContinuesOn(r, r1, r2);
    ContinuesRun(r1, r2);
    SameComing(me.disk, Restored(me.disk), peer.sent, TransferReceipt(t));
    SameComing(peer.disk, Restored(peer.disk), me.sent, TransferCommit(t));
    var r3 := r2;
    if StateOf(peer.disk, t) == Some(Accepted) {
      r3 := PaysOutAfterAll(r2, first, t);
      ContinuesOn(r, r2, r3);
      ContinuesRun(r2, r3);
    }
    r' := SettlesAfterAll(r3, first, t);
    ContinuesOn(r, r3, r');
  }

  lemma ContinuesRun(r: seq<System>, r': seq<System>)
    requires Continues(r, r')
    ensures IsRun(r') && r' != []
  {
    hide Next, Init;
  }

  /** A committed payment stays committed in every continuation exactly if it is lost: the payee
      expired it, or its commit was overtaken unsettled, or it was paid out and its receipt was
      overtaken.  Otherwise some continuation settles it. */
  lemma CommittedForever(r: seq<System>, first: bool, t: Id)
    requires IsRun(r)
    requires var me := Mine(Last(r), first).disk; StateOf(me, t) == Some(Committed) && me.transfers[t].outgoing
    ensures var me, peer := Mine(Last(r), first), Theirs(Last(r), first);
            (forall r' :: Continues(r, r') ==> StateOf(Mine(Last(r'), first).disk, t) == Some(Committed))
            <==> Lost(me, me.disk, peer, peer.disk, t)
  {
    hide Next, Init, Lost, Continues, StateOf;
    var me, peer := Mine(Last(r), first), Theirs(Last(r), first);
    forall r' | Continues(r, r') ensures r' != [] {
      ContinuesRun(r, r');
    }
    if Lost(me, me.disk, peer, peer.disk, t) {
      forall r' | Continues(r, r') ensures StateOf(Mine(Last(r'), first).disk, t) == Some(Committed) {
        LostAlways(r, r', first, t);
      }
    } else {
      var r' := CanSettle(r, first, t);
    }
  }

  lemma LostAlways(r: seq<System>, r': seq<System>, first: bool, t: Id)
    requires Continues(r, r')
    requires var me, peer := Mine(Last(r), first), Theirs(Last(r), first); Lost(me, me.disk, peer, peer.disk, t)
    ensures StateOf(Mine(Last(r'), first).disk, t) == Some(Committed)
  {
    hide Next, Init, Follows, Coming;
    var turns := RunFollows(r');
    LostStays(r', turns, |r| - 1, |r'| - 1, first, Mine(Last(r'), first).disk, Theirs(Last(r'), first).disk, t);
  }
}
