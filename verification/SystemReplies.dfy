/** What an envelope gets that is delivered again: for the rest of the run, restarts included, the
    answer it got the first time, and nothing else happens. */
module SystemReplies {
  import opened Wrappers
  import opened ChannelHistory
  import opened Ledgers
  import opened Messages
  import opened NodeSpec
  import opened NodeGate
  import opened NodeGrowth
  import opened Systems
  import opened SystemInvariant
  import opened SystemRuns
  import opened SystemSafety
  import opened SystemTurns
  import opened SystemRetries

  /** Answers are kept for accepted envelopes only. */
  predicate Filed(n: NodeState) { n.replies.Keys <= n.seen }

  /** What was accepted stays accepted, with the answer it got. */
  ghost predicate Remembers(n: NodeState, n': NodeState) {
    n.seen <= n'.seen && forall id :: id in n.seen ==> AnswerTo(n', id) == AnswerTo(n, id)
  }

  lemma SameRemembers(n: NodeState, n': NodeState)
    requires SameGate(n, n') && Filed(n)
    ensures Remembers(n, n') && Filed(n')
  {
  }

  lemma InboundRemembers(n: NodeState, env: Envelope, ctx: Ctx, autoSeed: int)
    requires Filed(n)
    ensures var n' := ProcessInbound(n, env, ctx, autoSeed).node; Remembers(n, n') && Filed(n')
  {
    hide Route;
    if Validate(env, n.seen, n.lastSeq, ctx.now).Ok? {
      RouteGate(n, env.body, ctx, autoSeed);
    }
  }

  lemma ActRemembers(n: NodeState, peer: Side, act: Action)
    requires Filed(n)
    ensures var n' := Act(n, peer, act).node; Remembers(n, n') && Filed(n')
  {
    hide OpenContact, StartTransfer, AbortTransfer, AdjustReserve, CloseContact, Sweep, ProcessInbound, Appended,
      Freezes, Remembers, Filed;
    if act.Receive? && act.i < |peer.sent| {
      InboundRemembers(n, peer.sent[act.i], act.ctx, act.autoSeed);
    } else {
      match act {
        case Open(ctx, seed, id) => OperationsGate(n, ctx, seed, id);
        case Start(ctx, from, to, src, id) => TradesGate(n, ctx, from, to, src, id);
        case Abort(ctx, id) => OperationsGate(n, ctx, 0, id);
        case Adjust(ctx, delta, id) => TradesGate(n, ctx, "", "", delta, id);
        case Close(ctx) => OperationsGate(n, ctx, 0, Uuid(""));
        case SweepAll(ids, now) => SweepGate(n, ids, now);
        case _ =>
      }
      SameRemembers(n, Act(n, peer, act).node);
    }
  }

  lemma RememberTogether(me: Side, n: NodeState, n': NodeState)
    requires Behind(me.disk, me.mem) && Holds(me, n) && Holds(me, n')
    ensures SameGate(n, n')
  {
    hide SameContact;
    assert me.mem.(contact := None, transfers := map[]) == me.disk.(contact := None, transfers := map[]);
  }

  lemma RestoredGate(n: NodeState)
    ensures SameGate(n, Restored(n)) && SameGate(n, n)
  {
  }

  lemma FirstFiled(r: seq<System>, turns: seq<Turn>, first: bool, n: NodeState)
    requires Follows(r, turns) && Holds(Mine(r[0], first), n)
    ensures Filed(n)
  {
  }

  lemma {:induction false} AlwaysFiled(r: seq<System>, turns: seq<Turn>, k: nat, first: bool, n: NodeState)
    requires Follows(r, turns) && k < |r| && Holds(Mine(r[k], first), n)
    ensures Filed(n)
  {
    hide Follows, Act, Filed, Remembers, Restored;
    if k == 0 {
      FirstFiled(r, turns, first, n);
    } else {
      Lengths(r, turns);
      var m := CameFrom(r, turns, k - 1, first, n);
      AlwaysFiled(r, turns, k - 1, first, m);
      RestoredGate(m);
      SameRemembers(m, Restored(m));
      ActRemembers(m, Theirs(r[k - 1], first), turns[k - 1].act);
    }
  }

  lemma RemembersOn(n: NodeState, m: NodeState, n': NodeState)
    requires Remembers(n, m) && Remembers(m, n')
    ensures Remembers(n, n')
  {
    hide AnswerTo;
  }

  /** Across any stretch of a run, in memory and on disk, nothing accepted is forgotten and no
      answer changes. */
  lemma {:induction false} AnswersStand(r: seq<System>, turns: seq<Turn>, j: nat, k: nat, first: bool,
                                        n: NodeState, n': NodeState)
    requires Follows(r, turns) && j <= k < |r| && Holds(Mine(r[j], first), n) && Holds(Mine(r[k], first), n')
    ensures Remembers(n, n')
    decreases k
  {
    hide Follows, Act, Filed, Remembers, Behind, Restored;
    AlwaysFiled(r, turns, j, first, n);
    if j == k {
      SideBehind(r, turns, k, first);
      RememberTogether(Mine(r[k], first), n, n');
      SameRemembers(n, n');
    } else {
      Lengths(r, turns);
      var m := CameFrom(r, turns, k - 1, first, n');
      AnswersStand(r, turns, j, k - 1, first, n, m);
      AlwaysFiled(r, turns, k - 1, first, m);
      RestoredGate(m);
      SameRemembers(m, Restored(m));
      SameRemembers(m, m);
      ActRemembers(m, Theirs(r[k - 1], first), turns[k - 1].act);
      RemembersOn(n, m, n');
    }
  }

  // ----- delivered again -----

  /** The turn takes in envelope i of the peer, past the gate. */
  predicate TakesIn(s: System, turn: Turn, i: nat) {
    var me, peer := Mine(s, turn.first), Theirs(s, turn.first);
    && turn.act.Receive? && turn.act.i == i < |peer.sent|
    && Validate(peer.sent[i], me.mem.seen, me.mem.lastSeq, turn.act.ctx.now).Ok?
  }

  /** What that turn answers. */
  function FirstAnswer(s: System, turn: Turn, i: nat): Option<Envelope>
    requires TakesIn(s, turn, i)
  {
    var me, peer := Mine(s, turn.first), Theirs(s, turn.first);
    ProcessInbound(me.mem, peer.sent[i], turn.act.ctx, turn.act.autoSeed).out
  }

  lemma TakenIn(n: NodeState, env: Envelope, ctx: Ctx, autoSeed: int)
    requires Filed(n) && Validate(env, n.seen, n.lastSeq, ctx.now).Ok?
    ensures var r := ProcessInbound(n, env, ctx, autoSeed);
            r.verdict.Ok? && env.id in r.node.seen && AnswerTo(r.node, env.id) == r.out
  {
    hide Route;
    RouteGate(n, env.body, ctx, autoSeed);
    assert env.id !in n.replies.Keys;
  }

  lemma Again(n: NodeState, env: Envelope, ctx: Ctx, autoSeed: int)
    requires env.id in n.seen
    ensures ProcessInbound(n, env, ctx, autoSeed) == Received(n, Duplicate, AnswerTo(n, env.id))
  {
    hide Route;
  }

  /** An envelope taken in at turn j is from then on, in memory and on disk and at any clock, a
      duplicate: it changes nothing, and it gets exactly the answer it got the first time, or none
      if it got none. */
  lemma AnsweredAlike(r: seq<System>, turns: seq<Turn>, j: nat, k: nat, i: nat, n: NodeState, ctx: Ctx, autoSeed: int)
    requires Follows(r, turns) && j < k < |r| && j < |turns| && TakesIn(r[j], turns[j], i)
    requires Holds(Mine(r[k], turns[j].first), n)
    ensures i < |Theirs(r[k], turns[j].first).sent|
    ensures ProcessInbound(n, Theirs(r[k], turns[j].first).sent[i], ctx, autoSeed)
            == Received(n, Duplicate, FirstAnswer(r[j], turns[j], i))
  {
    hide Follows, Filed, Remembers, ProcessInbound, Enabled, IsRun, Grows, Validate, AnswerTo;
    var first := turns[j].first;
    Lengths(r, turns);
    TurnTaken(r, turns, j, first);
    var me, env := Mine(r[j], first).mem, Theirs(r[j], first).sent[i];
    AlwaysFiled(r, turns, j, first, me);
    TakenIn(me, env, turns[j].act.ctx, turns[j].act.autoSeed);
    var me' := Mine(r[j + 1], first).mem;
    assert me' == ProcessInbound(me, env, turns[j].act.ctx, turns[j].act.autoSeed).node;
    AnswersStand(r, turns, j + 1, k, first, me', n);
    RememberOne(me', n, env.id);
    FollowsIsRun(r, turns);
    RunGrows(r, j, k);
    Again(n, env, ctx, autoSeed);
  }

  lemma RememberOne(n: NodeState, n': NodeState, id: Id)
    requires Remembers(n, n') && id in n.seen
    ensures id in n'.seen && AnswerTo(n', id) == AnswerTo(n, id)
  {
  }
}
