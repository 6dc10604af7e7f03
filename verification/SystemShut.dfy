/** Closing and freezing over whole runs: what brings them about, and that a contact once shut
    takes nothing up again, in memory or on disk. */
module SystemShut {
  import opened Wrappers
  import opened ChannelHistory
  import opened Ledgers
  import opened Messages
  import opened NodeSpec
  import opened NodeFrames
  import opened NodeShut
  import opened Systems
  import opened SystemInvariant
  import opened SystemSafety
  import opened SystemPromises
  import opened SystemTurns
  import opened SystemRetries

  // ----- one action -----

  /** The action compares a checkpoint that freezes the contact. */
  predicate FreezesBy(n: NodeState, peer: Side, act: Action) {
    act.Check? && act.j < |peer.posted| && Freezes(n, peer.posted[act.j].checkpoint)
  }

  /** The action closes the contact, or takes in the peer's word that it did. */
  predicate ClosesBy(n: NodeState, peer: Side, act: Action) {
    n.contact.Some? && (act.Close? || (act.Receive? && act.i < |peer.sent| && peer.sent[act.i].body.ContactClose?
                                       && Validate(peer.sent[act.i], n.seen, n.lastSeq, act.ctx.now).Ok?))
  }

  /** What shuts a contact, exactly, and that a shut one takes nothing up. */
  ghost predicate Shuts(n: NodeState, peer: Side, act: Action, n': NodeState) {
    && (FrozenAt(n') <==> FrozenAt(n) || FreezesBy(n, peer, act))
    && (ClosedAt(n') <==> ClosedAt(n) || ClosesBy(n, peer, act))
    && (Shut(n) ==> TakesNothing(n, n') && (LockedAt(n') ==> LockedAt(n)))
  }

  lemma KeepsShuts(n: NodeState, peer: Side, act: Action, n': NodeState)
    requires Keeps(n, n') && !act.Close? && !act.Check? && !ClosesBy(n, peer, act)
    ensures Shuts(n, peer, act, n')
  {
  }

  lemma InboundShuts(n: NodeState, peer: Side, act: Action)
    requires act.Receive? && act.i < |peer.sent|
    ensures Shuts(n, peer, act, ProcessInbound(n, peer.sent[act.i], act.ctx, act.autoSeed).node)
  {
    hide Route, Keeps, TakesNothing, Processed;
    var env := peer.sent[act.i];
    PlainKeeps(n, act.ctx, Ping);
    if Validate(env, n.seen, n.lastSeq, act.ctx.now).Ok? {
      var o := Route(n, env.body, act.ctx, act.autoSeed);
      ProcessedKeeps(n, o.node, env, o.out);
      if env.body.ContactClose? {
        CloseRoutes(n, env.body, act.ctx, act.autoSeed);
      } else {
        RouteKeeps(n, env.body, act.ctx, act.autoSeed);
        KeepsShuts(n, peer, act, Processed(o.node, env, o.out));
      }
    } else {
      KeepsShuts(n, peer, act, n);
    }
  }

  lemma CloseRoutes(n: NodeState, b: Body, ctx: Ctx, autoSeed: int)
    requires b.ContactClose?
    ensures var n' := Route(n, b, ctx, autoSeed).node;
            && TakesNothing(n, n') && (ClosedAt(n') <==> n.contact.Some?) && FrozenAt(n') == FrozenAt(n)
            && LockedAt(n') == LockedAt(n)
  {
    ClosedByPeer(n);
  }

  lemma LocalKeeps(n: NodeState, book: Book, members: set<string>)
    ensures Keeps(n, n) && Keeps(n, n.(book := book)) && Keeps(n, n.(members := members))
  {
  }

  lemma ActShuts(n: NodeState, peer: Side, act: Action)
    ensures Shuts(n, peer, act, Act(n, peer, act).node)
  {
    hide OpenContact, StartTransfer, AbortTransfer, AdjustReserve, CloseContact, Sweep, ProcessInbound, Appended,
      Reconcile, Keeps, Shuts, TakesNothing, Freezes;
    LocalKeeps(n, n.book, {});
    match act
    case Open(ctx, seed, id) => OpenKeeps(n, ctx, seed, id); KeepsShuts(n, peer, act, Act(n, peer, act).node);
    case Start(ctx, from, to, src, id) =>
      StartKeeps(n, ctx, from, to, src, id);
      KeepsShuts(n, peer, act, Act(n, peer, act).node);
    case Abort(ctx, id) => AbortKeeps(n, ctx, id); KeepsShuts(n, peer, act, Act(n, peer, act).node);
    case Adjust(ctx, delta, id) => AdjustKeeps(n, ctx, delta, id); KeepsShuts(n, peer, act, Act(n, peer, act).node);
    case Close(ctx) => CloseShuts(n, peer, act);
    case SweepAll(ids, now) => SweepKeeps(n, ids, now); KeepsShuts(n, peer, act, Act(n, peer, act).node);
    case Receive(i, ctx, autoSeed) =>
      if i < |peer.sent| {
        InboundShuts(n, peer, act);
      } else {
        KeepsShuts(n, peer, act, n);
      }
    case Local(tx) =>
      if Appended(n.book, tx).Success? {
        LocalKeeps(n, Appended(n.book, tx).value, {});
      }
      KeepsShuts(n, peer, act, Act(n, peer, act).node);
    case SetMembers(members) => LocalKeeps(n, n.book, members); KeepsShuts(n, peer, act, Act(n, peer, act).node);
    case Check(j) => CheckShuts(n, peer, act);
    case _ => KeepsShuts(n, peer, act, n);
  }

  lemma CloseShuts(n: NodeState, peer: Side, act: Action)
    requires act.Close?
    ensures Shuts(n, peer, act, CloseContact(n, act.ctx).node)
  {
  }

  lemma CheckShuts(n: NodeState, peer: Side, act: Action)
    requires act.Check?
    ensures Shuts(n, peer, act, Act(n, peer, act).node)
  {
    hide Freezes;
    if act.j < |peer.posted| {
      FreezeMarks(n, peer.posted[act.j].checkpoint);
    }
  }

  // ----- whole runs -----

  /** Still shut for the same reasons, with nothing taken up since. */
  ghost predicate StaysShut(n: NodeState, n': NodeState) {
    (FrozenAt(n) ==> FrozenAt(n')) && (ClosedAt(n) ==> ClosedAt(n')) && TakesNothing(n, n')
  }

  lemma RestoredShut(n: NodeState)
    ensures var n' := Restored(n);
            FrozenAt(n') == FrozenAt(n) && ClosedAt(n') == ClosedAt(n) && TakesNothing(n, n') && TakesNothing(n, n)
  {
  }

  lemma ShutTogether(me: Side, n: NodeState, n': NodeState)
    requires Behind(me.disk, me.mem) && Holds(me, n) && Holds(me, n')
    ensures FrozenAt(n') == FrozenAt(n) && ClosedAt(n') == ClosedAt(n) && TakesNothing(n, n')
  {
    if n.contact.Some? {
      assert n'.contact.Some?;
    }
  }

  lemma TakesNothingOn(n: NodeState, m: NodeState, n': NodeState)
    requires TakesNothing(n, m) && TakesNothing(m, n')
    ensures TakesNothing(n, n')
  {
  }

  /** What was closed or frozen at one index is at every later one, in memory and on disk, and from
      then on this node takes up no transfer and no adjustment. */
  lemma {:induction false} ShutForever(r: seq<System>, turns: seq<Turn>, j: nat, k: nat, first: bool,
                                       n: NodeState, n': NodeState)
    requires Follows(r, turns) && j <= k < |r| && Holds(Mine(r[j], first), n) && Holds(Mine(r[k], first), n')
    requires Shut(n)
    ensures StaysShut(n, n') && Shut(n')
    decreases k
  {
    hide Follows, Act, TakesNothing, Behind, FreezesBy, ClosesBy, Restored, LockedAt;
    if j == k {
      SideBehind(r, turns, k, first);
      ShutTogether(Mine(r[k], first), n, n');
    } else {
      Lengths(r, turns);
      var m := CameFrom(r, turns, k - 1, first, n');
      ShutForever(r, turns, j, k - 1, first, n, m);
      RestoredShut(m);
      ActShuts(m, Theirs(r[k - 1], first), turns[k - 1].act);
      TakesNothingOn(n, m, n');
    }
  }

  /** After a freeze or a closing at index j: at every index k from there on the node's own
      payments and adjustments are refused without a message, and one its peer proposes is answered
      with the refusal that fits and leaves the transfers, the contact and the book as they are. */
  lemma ShutTradesNoMore(r: seq<System>, j: nat, k: nat, first: bool, n: NodeState, n': NodeState, i: nat, ctx: Ctx,
                         autoSeed: int, from: string, to: string, x: int, id: Id)
    requires IsRun(r) && j <= k < |r| && Holds(Mine(r[j], first), n) && Holds(Mine(r[k], first), n') && Shut(n)
    ensures Shut(n') && (FrozenAt(n) ==> FrozenAt(n'))
    ensures StartTransfer(n', ctx, from, to, x, id) == Done(n', None, false)
    ensures AdjustReserve(n', ctx, x, id) == Done(n', None, false)
    ensures var sy := Theirs(r[k], first).sent;
            i < |sy| && (sy[i].body.TransferPropose? || sy[i].body.ReserveAdjust?)
            && Validate(sy[i], n'.seen, n'.lastSeq, ctx.now).Ok? ==>
              var o := ProcessInbound(n', sy[i], ctx, autoSeed);
              var code := if FrozenAt(n) && n'.contact.value.active && !ClosedAt(n') then Frozen else UnknownContact;
              && o.node.transfers == n'.transfers && o.node.contact == n'.contact && o.node.book == n'.book
              && o.out.Some?
              && o.out.value.body == if sy[i].body.TransferPropose? then TransferReject(sy[i].body.transferId, code)
                                     else ErrorReply(if code.Frozen? then ContactFrozen else NoContact)
  {
    hide IsRun, Follows, ProcessInbound, StartTransfer, AdjustReserve, TakesNothing;
    var turns := RunFollows(r);
    ShutForever(r, turns, j, k, first, n, n');
    ShutRefuses(n', ctx, from, to, x, x, id);
    var sy := Theirs(r[k], first).sent;
    if i < |sy| && (sy[i].body.TransferPropose? || sy[i].body.ReserveAdjust?)
      && Validate(sy[i], n'.seen, n'.lastSeq, ctx.now).Ok? {
      ShutAnswers(n', sy[i], ctx, autoSeed);
    }
  }

  /** A contact is frozen only by a comparison of its own node that found another root, and closed
      only by its node or on the peer's word. */
  lemma {:induction false} ShutByTurn(r: seq<System>, turns: seq<Turn>, k: nat, first: bool, n: NodeState)
    requires Follows(r, turns) && k < |r| && Holds(Mine(r[k], first), n)
    ensures FrozenAt(n) ==> exists j :: 0 <= j < k && j < |turns| && j < |r| && turns[j].first == first
                                        && FreezesBy(Mine(r[j], first).mem, Theirs(r[j], first), turns[j].act)
    ensures ClosedAt(n) ==> exists j :: 0 <= j < k && j < |turns| && j < |r| && turns[j].first == first
                                        && ClosesBy(Mine(r[j], first).mem, Theirs(r[j], first), turns[j].act)
  {
    hide Follows, Act, TakesNothing, FreezesBy, ClosesBy, Restored, LockedAt;
    if k == 0 {
      NothingAtFirst(r, turns, first, n);
    } else {
      Lengths(r, turns);
      var m := CameFrom(r, turns, k - 1, first, n);
      ShutByTurn(r, turns, k - 1, first, m);
      RestoredShut(m);
      ActShuts(m, Theirs(r[k - 1], first), turns[k - 1].act);
    }
  }

  // ----- reserves at rest -----

  lemma LocalRests(n: NodeState, book: Book, members: set<string>, cp: Checkpoint)
    requires AtRest(n)
    ensures SameDeal(n, n.(book := book)) && SameDeal(n, n.(members := members)) && SameDeal(n, Reconcile(n, cp))
  {
    hide Freezes;
  }

  lemma InboundRests(n: NodeState, env: Envelope, ctx: Ctx, autoSeed: int)
    requires AtRest(n)
    ensures SameDeal(n, ProcessInbound(n, env, ctx, autoSeed).node)
  {
    hide Route, AtRest;
    RouteRests(n, env.body, ctx, autoSeed);
    SendsRest(n, ctx, Pong);
  }

  lemma RestRefuses(n: NodeState, ctx: Ctx, seed: int, id: Id)
    requires AtRest(n)
    ensures OpenContact(n, ctx, seed, id).node == n && AbortTransfer(n, ctx, id).node == n
  {
  }

  /** Nothing a node does moves a contact at rest. */
  lemma ActRests(n: NodeState, peer: Side, act: Action)
    requires AtRest(n)
    ensures SameDeal(n, Act(n, peer, act).node)
  {
    hide OpenContact, StartTransfer, AbortTransfer, AdjustReserve, CloseContact, Sweep, ProcessInbound, Appended,
      Reconcile, SameDeal;
    RestIsShut(n);
    hide AtRest;
    SendsRest(n, Ctx(0, Uuid(""), Uuid("")), Pong);
    match act
    case Open(ctx, seed, id) => RestRefuses(n, ctx, seed, id);
    case Start(ctx, from, to, src, id) => ShutRefuses(n, ctx, from, to, src, 0, id);
    case Abort(ctx, id) => RestRefuses(n, ctx, 0, id);
    case Adjust(ctx, delta, id) => ShutRefuses(n, ctx, "", "", 0, delta, id);
    case Close(ctx) => CloseRests(n);
    case SweepAll(ids, now) => RestsUnswept(n, ids, now);
    case Receive(i, ctx, autoSeed) =>
      if i < |peer.sent| {
        InboundRests(n, peer.sent[i], ctx, autoSeed);
      }
    case Local(tx) =>
      if Appended(n.book, tx).Success? {
        LocalRests(n, Appended(n.book, tx).value, {}, Checkpoint(Uuid(""), 0, Zero, 0));
      }
    case SetMembers(members) => LocalRests(n, n.book, members, Checkpoint(Uuid(""), 0, Zero, 0));
    case Check(j) =>
      if j < |peer.posted| {
        LocalRests(n, n.book, {}, peer.posted[j].checkpoint);
      }
    case _ =>
  }

  lemma RestIsShut(n: NodeState)
    requires AtRest(n)
    ensures Shut(n) && n.contact.Some?
  {
  }

  lemma RestTogether(me: Side, peer: Side)
    requires Met(me, me.mem, peer, peer.mem) && Behind(me.disk, me.mem) && AtRest(me.disk)
    ensures SameDeal(me.disk, me.mem) && SameDeal(me.disk, me.disk)
  {
    hide Met;
    var d, m := me.disk, me.mem;
    LockIsLive(me, m, peer, peer.mem);
    forall t | t in m.transfers ensures t in d.transfers && m.transfers[t] == d.transfers[t] {
      assert t in d.transfers.Keys;
    }
    assert m.transfers == d.transfers;
    NothingLive(m);
    NoneNamed(m.contact.value.busyTransfer);
  }

  lemma NothingLive(n: NodeState)
    requires n.contact.Some? && n.contact.value.pendingAdjust.None?
    requires forall t :: t in n.transfers ==>
               !n.transfers[t].state.Proposed? && !n.transfers[t].state.Accepted? && !n.transfers[t].state.Committed?
    ensures forall id :: !LiveOperation(n, id)
  {
  }

  lemma NoneNamed(o: Option<Id>)
    requires forall id :: o != Some(id)
    ensures o.None?
  {
    match o
    case None =>
    case Some(id) => assert false;
  }

  lemma SameDealOn(n: NodeState, m: NodeState, n': NodeState)
    requires SameDeal(n, m) && SameDeal(m, n')
    ensures SameDeal(n, n')
  {
  }

  lemma RestoredDeal(n: NodeState)
    requires AtRest(n)
    ensures SameDeal(n, Restored(n)) && SameDeal(n, n)
  {
  }

  /** Once a contact is shut and, as stored, nothing is under way on it, this node's side of the deal
      never changes again: both reserve counters, the operations and every transfer stay as they
      are at every later index, in memory and on disk.  No withdrawal by consent gets through. */
  lemma {:induction false} ReservesRest(r: seq<System>, turns: seq<Turn>, j: nat, k: nat, first: bool, n: NodeState)
    requires Follows(r, turns) && j <= k < |r| && Holds(Mine(r[k], first), n) && AtRest(Mine(r[j], first).disk)
    ensures SameDeal(Mine(r[j], first).disk, n) && AtRest(n)
    decreases k
  {
    hide Follows, Act, AtRest, SameDeal, Behind, Restored, Met, StaysShut;
    var d := Mine(r[j], first).disk;
    RestIsShut(d);
    ShutForever(r, turns, j, k, first, d, n);
    if j == k {
      SideBehind(r, turns, k, first);
      MetAt(r, turns, k, first, Mine(r[k], first).mem, Theirs(r[k], first).mem);
      RestTogether(Mine(r[k], first), Theirs(r[k], first));
    } else {
      Lengths(r, turns);
      var m := CameFrom(r, turns, k - 1, first, n);
      ReservesRest(r, turns, j, k - 1, first, m);
      RestoredDeal(m);
      ActRests(m, Theirs(r[k - 1], first), turns[k - 1].act);
      SameDealOn(d, m, n);
    }
    RestOn(d, n);
  }
}
