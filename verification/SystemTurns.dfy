/** Runs with their schedules: whose turn each step was and what it did.  What the clocks of the
    turns decide, what a receipt and a pending adjustment become later, for either side. */
module SystemTurns {
  import opened Wrappers
  import opened ChannelHistory
  import opened Ledgers
  import opened TransferStates
  import opened Messages
  import opened NodeSpec
  import opened NodeInvariant
  import opened NodeSteps
  import opened NodeTransferSteps
  import opened NodeInbound
  import opened NodeGrowth
  import opened NodeFrames
  import opened NodeTriggers
  import opened Systems
  import opened SystemInvariant
  import opened SystemSafety
  import P = ProtocolInvariant
  import M = ProtocolMoves

  // ----- what one action leaves alone -----

  /** The clock an action reads, if it reads one. */
  function Clock(act: Action): Option<int> {
    match act
    case Open(ctx, _, _) => Some(ctx.now)
    case Start(ctx, _, _, _, _) => Some(ctx.now)
    case Abort(ctx, _) => Some(ctx.now)
    case Adjust(ctx, _, _) => Some(ctx.now)
    case Close(ctx) => Some(ctx.now)
    case SweepAll(_, now) => Some(now)
    case Receive(_, ctx, _) => Some(ctx.now)
    case _ => None
  }

  ghost predicate AdvancesBy(n: NodeState, n': NodeState, clock: Option<int>) {
    if clock.Some? then Advances(n, n', clock.value) else n'.transfers == n.transfers && n'.lastSeq == n.lastSeq
  }

  /** The message an action handles, if it handles one. */
  predicate Handles(peer: Side, act: Action, b: Body) {
    act.Receive? && act.i < |peer.sent| && peer.sent[act.i].body == b
  }

  /** Only the messages and the operation of an adjustment change the adjustments under way. */
  ghost predicate AdjustsLike(n: NodeState, peer: Side, act: Action, n': NodeState) {
    || SameAdjusts(n, n')
    || (act.Adjust? && AppliedAt(n') == AppliedAt(n) && PendingAt(n') == Some(act.id)
        && ReleaseIfBusyExpired(n, act.ctx.now).contact.Some?
          && !ReleaseIfBusyExpired(n, act.ctx.now).contact.value.busy)
    || (act.Receive? && n.lastSeq <= act.i < |peer.sent| && AdjustsBy(n, peer.sent[act.i].body, n'))
  }

  lemma InboundFrame(n: NodeState, y: P.Core, sx: Sent, sy: Sent, i: nat, ctx: Ctx, autoSeed: int)
    requires Good(n, y, sx, sy) && i < |sy| && Numbered(sy)
    ensures var n' := ProcessInbound(n, sy[i], ctx, autoSeed).node;
            Advances(n, n', ctx.now) && (SameAdjusts(n, n') || (n.lastSeq <= i && AdjustsBy(n, sy[i].body, n')))
  {
    hide Good, Route, M.Readable, Advances, AdjustsBy, SameAdjusts;
    var env := sy[i];
    ErrorFrames(n, ctx);
    if Validate(env, n.seen, n.lastSeq, ctx.now).Ok? {
      AtGood(n, y, sx, sy, i);
      if env.body.TransferPropose? {
        NotKnown(At(n, i + 1), y, sx, sy, i);
      }
      var o := Route(n, env.body, ctx, autoSeed);
      RouteFrame(n, env.body, ctx, autoSeed);
      SameExceptPosition(n, o.node, Processed(o.node, env, o.out), env.body, ctx.now);
    }
  }

  lemma SameExceptPosition(n: NodeState, m: NodeState, m': NodeState, b: Body, now: int)
    requires Advances(n, m, now) && AdjustsBy(n, b, m) && m'.transfers == m.transfers && m'.contact == m.contact
    requires m.lastSeq <= m'.lastSeq
    ensures Advances(n, m', now) && AdjustsBy(n, b, m')
  {
    hide Advance;
  }

  lemma ActFrame(n: NodeState, y: P.Core, sx: Sent, peer: Side, act: Action)
    requires Good(n, y, sx, peer.sent) && Numbered(peer.sent)
    requires Draws(act) ==> act.id !in n.transfers
    ensures var n' := Act(n, peer, act).node; AdvancesBy(n, n', Clock(act)) && AdjustsLike(n, peer, act, n')
  {
    hide Good, OpenContact, StartTransfer, AbortTransfer, AdjustReserve, CloseContact, Sweep, ProcessInbound, Appended,
      Advances, Numbered, AdjustsBy, ReleaseIfBusyExpired;
    match act
    case Open(ctx, seed, id) => OpenCloseFrame(n, ctx, seed, id);
    case Start(ctx, from, to, src, id) => StartFrame(n, ctx, from, to, src, id);
    case Abort(ctx, id) => AbortFrame(n, ctx, id);
    case Adjust(ctx, delta, id) => AdjustReserveFrame(n, ctx, delta, id);
    case Close(ctx) => OpenCloseFrame(n, ctx, 0, Uuid(""));
    case SweepAll(ids, now) => SweepFrame(n, ids, now);
    case Receive(i, ctx, autoSeed) =>
      SameFrame(n, n, ctx.now);
      if i < |peer.sent| {
        InboundFrame(n, y, sx, peer.sent, i, ctx, autoSeed);
      }
    case Local(tx) =>
    case SetMembers(members) =>
    case Check(j) =>
    case Post =>
    case Restart =>
  }

  /** A node acknowledges an adjustment only on receiving its proposal. */
  lemma ActAcknowledges(n: NodeState, peer: Side, act: Action, id: Id)
    requires Numbered(peer.sent)
    requires var r := Act(n, peer, act); Acknowledges(n, Outcome(r.node, r.out), id)
    ensures act.Receive? && n.lastSeq <= act.i < |peer.sent|
    ensures var b := peer.sent[act.i].body; b.ReserveAdjust? && b.adjustId == id
  {
    if act.Receive? {
      hide Route, Processed;
      if act.i < |peer.sent| {
        ProcessedOutSeq(n, peer.sent[act.i], act.ctx, act.autoSeed);
        if Acknowledges(n, Route(n, peer.sent[act.i].body, act.ctx, act.autoSeed), id) {
          OnlyProposalsAcknowledged(n, peer.sent[act.i].body, act.ctx, act.autoSeed, id);
        }
      }
    } else {
      OwnNeverAcknowledges(n, peer, act, id);
    }
  }

  lemma ProcessedOutSeq(n: NodeState, env: Envelope, ctx: Ctx, autoSeed: int)
    ensures var o := Route(n, env.body, ctx, autoSeed); Processed(o.node, env, o.out).outSeq == o.node.outSeq
  {
    hide Route;
  }

  lemma OwnNeverAcknowledges(n: NodeState, peer: Side, act: Action, id: Id)
    requires !act.Receive?
    ensures var r := Act(n, peer, act); !Acknowledges(n, Outcome(r.node, r.out), id)
  {
    hide ReleaseIfBusyExpired, Sweep, Appended, PriceOutgoing, Reconcile, SetState, ReleaseFor;
  }

  // ----- schedules -----

  /** One step: the first node's turn or the second's, and what it did. */
  datatype Turn = Turn(first: bool, act: Action)

  /** The run that a schedule drives. */
  ghost predicate Follows(r: seq<System>, turns: seq<Turn>) {
    && |r| == |turns| + 1 && Init(r[0])
    && forall k :: 0 <= k < |turns| ==>
         if turns[k].first then StepsA(r[k], r[k + 1], turns[k].act) else StepsB(r[k], r[k + 1], turns[k].act)
  }

  lemma FollowsIsRun(r: seq<System>, turns: seq<Turn>)
    requires Follows(r, turns)
    ensures IsRun(r)
  {
    hide StepsA, StepsB, Init;
    forall k | 0 < k < |r| ensures Next(r[k - 1], r[k]) {
      assert StepsA(r[k - 1], r[k], turns[k - 1].act) || StepsB(r[k - 1], r[k], turns[k - 1].act);
    }
  }

  /** Every run follows some schedule. */
  lemma {:induction false} RunFollows(r: seq<System>) returns (turns: seq<Turn>)
    requires IsRun(r)
    ensures Follows(r, turns)
  {
    hide StepsA, StepsB, Init;
    if |r| == 1 {
      turns := [];
    } else {
      var k := |r| - 1;
      var front := RunFollows(r[..k]);
      assert Next(r[k - 1], r[k]);
      var act :| StepsA(r[k - 1], r[k], act) || StepsB(r[k - 1], r[k], act);
      turns := front + [Turn(StepsA(r[k - 1], r[k], act), act)];
    }
  }

  lemma Lengths(r: seq<System>, turns: seq<Turn>)
    requires Follows(r, turns)
    ensures |r| == |turns| + 1
  {
  }

  function Mine(s: System, first: bool): Side { if first then s.a else s.b }

  function Theirs(s: System, first: bool): Side { Mine(s, !first) }

  /** The step at k as one side sees it. */
  lemma TurnTaken(r: seq<System>, turns: seq<Turn>, k: nat, first: bool)
    requires Follows(r, turns) && k < |turns|
    ensures var me, peer := Mine(r[k], first), Theirs(r[k], first);
            var me', peer' := Mine(r[k + 1], first), Theirs(r[k + 1], first);
            if turns[k].first == first
            then Enabled(me, peer, turns[k].act) && me' == Step(me, peer, turns[k].act) && peer' == peer
            else Enabled(peer, me, turns[k].act) && peer' == Step(peer, me, turns[k].act) && me' == me
  {
    hide Enabled, Step, Init;
  }

  lemma MetAt(r: seq<System>, turns: seq<Turn>, k: nat, first: bool, n: NodeState, m: NodeState)
    requires Follows(r, turns) && k < |r| && Holds(Mine(r[k], first), n) && Holds(Theirs(r[k], first), m)
    ensures Met(Mine(r[k], first), n, Theirs(r[k], first), m)
  {
    hide Follows, IsRun;
    FollowsIsRun(r, turns);
    assert r[k] == System(r[k].a, r[k].b);
  }

  /** The same transfers, operations and adjustments. */
  predicate Kin(n: NodeState, n': NodeState) {
    && n'.transfers == n.transfers && SameAdjusts(n, n') && n'.lastSeq == n.lastSeq && n'.seen == n.seen
    && (ActiveAt(n') <==> ActiveAt(n))
    && (n.contact.Some? <==> n'.contact.Some?) && History(n') == History(n)
  }

  /** A state held after a turn was held before, or is what the action made of the memory. */
  lemma Before(me: Side, peer: Side, act: Action, n': NodeState) returns (n: NodeState)
    requires Holds(Step(me, peer, act), n')
    ensures Holds(me, n) && (Kin(n, n') || (n == me.mem && n' == Act(me.mem, peer, act).node))
  {
    hide Act, RecordRoot;
    if act.Restart? {
      n := me.disk;
      RestoredKin(n);
    } else if act.Post? {
      n := n';
    } else if n' == Act(me.mem, peer, act).node {
      n := me.mem;
    } else {
      n := n';
    }
  }

  lemma RestoredKin(n: NodeState)
    ensures Kin(n, Restored(n))
  {
  }

  /** The same, kept apart: nothing happened to it, a restart, or an action. */
  ghost predicate Came(me: Side, peer: Side, act: Action, n: NodeState, n': NodeState) {
    Holds(me, n) && (n' == n || n' == Restored(n) || (n == me.mem && n' == Act(me.mem, peer, act).node))
  }

  lemma CameFrom(r: seq<System>, turns: seq<Turn>, k: nat, first: bool, n': NodeState) returns (n: NodeState)
    requires Follows(r, turns) && k < |turns| && Holds(Mine(r[k + 1], first), n')
    ensures |r| == |turns| + 1 && Came(Mine(r[k], first), Theirs(r[k], first), turns[k].act, n, n')
    ensures turns[k].first != first ==> n' == n
  {
    hide Follows, Act, Enabled, Restored;
    Lengths(r, turns);
    TurnTaken(r, turns, k, first);
    var me, act := Mine(r[k], first), turns[k].act;
    if turns[k].first != first || act.Post? {
      n := n';
    } else if act.Restart? {
      n := me.disk;
    } else if n' == Act(me.mem, Theirs(r[k], first), act).node {
      n := me.mem;
    } else {
      n := n';
    }
  }

  /** What a turn may make of a state one side holds. */
  lemma TurnFrame(r: seq<System>, turns: seq<Turn>, k: nat, first: bool, n': NodeState) returns (n: NodeState)
    requires Follows(r, turns) && k < |turns| && Holds(Mine(r[k + 1], first), n')
    ensures Holds(Mine(r[k], first), n) && History(n) <= History(n') && n.lastSeq <= n'.lastSeq
    ensures Kin(n, n')
            || (turns[k].first == first && AdvancesBy(n, n', Clock(turns[k].act))
                && AdjustsLike(n, Theirs(r[k], first), turns[k].act, n'))
  {
    hide Follows, Step, Enabled, Act, AdvancesBy, AdjustsLike, Good, Met, Numbered, Grows;
    Lengths(r, turns);
    TurnTaken(r, turns, k, first);
    var me, peer, act := Mine(r[k], first), Theirs(r[k], first), turns[k].act;
    if turns[k].first == first {
      n := Before(me, peer, act, n');
      if !Kin(n, n') {
        MetAt(r, turns, k, first, me.mem, peer.mem);
        MetGood(me, me.mem, peer, peer.mem);
        OutSeqIs(peer.mem, CoreOf(me.mem), peer.sent, me.sent);
        DrawsNew(me, peer, act);
        ActFrame(me.mem, CoreOf(peer.mem), me.sent, peer, act);
        ActGrows(me.mem, CoreOf(peer.mem), me.sent, peer, act);
        FurtherOn(n, n', Clock(act));
      }
    } else {
      n := n';
      SameKin(n);
    }
  }

  lemma FurtherOn(n: NodeState, n': NodeState, clock: Option<int>)
    ensures AdvancesBy(n, n', clock) ==> n.lastSeq <= n'.lastSeq
    ensures Grows(n, n') ==> History(n) <= History(n')
  {
    hide Advance;
  }

  lemma SameKin(n: NodeState)
    ensures Kin(n, n)
  {
  }

  lemma DrawsNew(me: Side, peer: Side, act: Action)
    requires Enabled(me, peer, act)
    ensures Draws(act) ==> act.id !in me.mem.transfers
  {
    hide M.Unmentioned;
  }

  // ----- what the clocks decide -----

  /** Some turn before k of this side read a clock past the given time. */
  ghost predicate Overtaken(turns: seq<Turn>, k: nat, first: bool, expires: int) {
    exists j :: 0 <= j < k && j < |turns| && turns[j].first == first
                && Clock(turns[j].act).Some? && Clock(turns[j].act).value > expires
  }

  /** Some turn before k of this side read a clock within the given time. */
  ghost predicate InTime(turns: seq<Turn>, k: nat, first: bool, expires: int) {
    exists j :: 0 <= j < k && j < |turns| && turns[j].first == first
                && Clock(turns[j].act).Some? && Clock(turns[j].act).value <= expires
  }

  lemma OneTurnOn(turns: seq<Turn>, k: nat, first: bool, expires: int)
    requires k < |turns|
    ensures Overtaken(turns, k, first, expires) ==> Overtaken(turns, k + 1, first, expires)
    ensures InTime(turns, k, first, expires) ==> InTime(turns, k + 1, first, expires)
    ensures turns[k].first == first && Clock(turns[k].act).Some? ==>
              if Clock(turns[k].act).value > expires then Overtaken(turns, k + 1, first, expires)
              else InTime(turns, k + 1, first, expires)
  {
    hide Clock;
    var c := Clock(turns[k].act);
  }

  /** Whatever its schedule: a transfer is expired at one side only after a turn of that side read
      a clock past its expiry, and its payer has committed it only in a turn within it. */
  lemma {:induction false} ClocksDecide(r: seq<System>, turns: seq<Turn>, k: nat, first: bool, n: NodeState, t: Id)
    requires Follows(r, turns) && k < |r| && Holds(Mine(r[k], first), n) && t in n.transfers
    ensures n.transfers[t].state.Expired? ==> Overtaken(turns, k, first, n.transfers[t].expires)
    ensures n.transfers[t].outgoing && Spent(n.transfers[t].state) ==> InTime(turns, k, first, n.transfers[t].expires)
  {
    hide Follows, Overtaken, InTime, AdjustsLike, Clock;
    if k == 0 {
      NothingAtFirst(r, turns, first, n);
    } else {
      Lengths(r, turns);
      var m := TurnFrame(r, turns, k - 1, first, n);
      OneTurnOn(turns, k - 1, first, n.transfers[t].expires);
      if t in m.transfers {
        ClocksDecide(r, turns, k - 1, first, m, t);
      }
      Advanced(m, n, Clock(turns[k - 1].act), t);
    }
  }

  lemma NothingAtFirst(r: seq<System>, turns: seq<Turn>, first: bool, n: NodeState)
    requires Follows(r, turns) && Holds(Mine(r[0], first), n)
    ensures n.transfers == map[] && n.contact.None?
  {
  }

  lemma Advanced(m: NodeState, n: NodeState, clock: Option<int>, t: Id)
    requires t in n.transfers
    ensures clock.Some? && AdvancesBy(m, n, clock) ==> Advance(m, t, n.transfers[t], clock.value)
    ensures clock.None? && AdvancesBy(m, n, clock) ==> n.transfers == m.transfers
  {
  }
}
