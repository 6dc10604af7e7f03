/** The invariant of every run, whichever of its states each node holds. */
module SystemInvariant {
  import opened Wrappers
  import opened ChannelHistory
  import opened Ledgers
  import opened Supply
  import opened TransferStates
  import opened Messages
  import opened NodeSpec
  import opened NodeInvariant
  import opened NodeRecords
  import opened NodeSteps
  import opened NodeOpenSteps
  import opened NodeTransferSteps
  import opened NodeCommitSteps
  import opened NodeAdjustSteps
  import opened NodeInbound
  import opened NodeGrowth
  import opened Systems
  import P = ProtocolInvariant
  import M = ProtocolMoves

  // ----- one action, beside one state of the peer -----

  lemma SweepGood(n: NodeState, y: P.Core, sx: Sent, sy: Sent, ids: seq<Id>, now: int)
    requires Good(n, y, sx, sy)
    ensures Good(Sweep(n, ids, now), y, sx, sy)
  {
    hide Good, ExpireIfDue;
    if ids != [] {
      SweepGood(n, y, sx, sy, ids[..|ids| - 1], now);
      ExpireGood(Sweep(n, ids[..|ids| - 1], now), y, sx, sy, ids[|ids| - 1], now);
    }
  }

  lemma OwnBookGood(n: NodeState, y: P.Core, sx: Sent, sy: Sent, tx: Tx)
    requires Good(n, y, sx, sy) && OwnTx(n, tx) && Appended(n.book, tx).Success?
    ensures Good(n.(book := Appended(n.book, tx).value), y, sx, sy)
  {
    hide P.Inv, Linked, Kept, Logged, Appended;
    var n' := n.(book := Appended(n.book, tx).value);
    assert CoreOf(n') == CoreOf(n);
    SameLinks(n, n');
    SameLogged(n, n', sx);
    OwnBookKept(n, n', tx);
  }

  lemma OwnBookKept(n: NodeState, n': NodeState, tx: Tx)
    requires Kept(n) && OwnTx(n, tx) && Appended(n.book, tx) == Success(n'.book) && n' == n.(book := n'.book)
    ensures Kept(n')
  {
    hide Sound, CountOf, Appended, P.Funded;
    assert CoreOf(n') == CoreOf(n);
    BookedExtends(n.book, tx, n'.book);
    NotNamed(tx.entries, Wallet(n));
    BookedKept(n, n', tx);
  }

  lemma MembersGood(n: NodeState, y: P.Core, sx: Sent, sy: Sent, members: set<string>)
    requires Good(n, y, sx, sy)
    ensures Good(n.(members := members), y, sx, sy)
  {
    hide P.Inv, Linked, Kept, Logged;
    var n' := n.(members := members);
    assert CoreOf(n') == CoreOf(n);
    SameLinks(n, n');
    SameLogged(n, n', sx);
    MarkedKept(n, n');
  }

  /** Fresh identifiers for one state of the peer. */
  predicate Draws(act: Action) { act.Start? || act.Adjust? }

  lemma ActGood(n: NodeState, y: P.Core, sx: Sent, peer: Side, act: Action)
    requires Good(n, y, sx, peer.sent) && Numbered(peer.sent)
    requires act.Local? ==> OwnTx(n, act.tx)
    requires Draws(act) ==> Fresh(n, y, sx, peer.sent, act.id)
    ensures var r := Act(n, peer, act); Good(r.node, y, SentAfter(sx, n, r.node, r.out), peer.sent)
  {
    hide Good, OpenContact, StartTransfer, AbortTransfer, AdjustReserve, CloseContact, Sweep, ProcessInbound, Appended,
      Reconcile, Fresh, OwnTx, Numbered;
    OutSeqIs(n, y, sx, peer.sent);
    var sy := peer.sent;
    match act
    case Open(ctx, seed, id) => OpenContactGood(n, y, sx, sy, ctx, seed, id); DoneGood(n, y, sx, peer, act);
    case Start(ctx, from, to, src, id) =>
      StartTransferGood(n, y, sx, sy, ctx, from, to, src, id); DoneGood(n, y, sx, peer, act);
    case Abort(ctx, id) => AbortTransferGood(n, y, sx, sy, ctx, id); DoneGood(n, y, sx, peer, act);
    case Adjust(ctx, delta, id) => AdjustReserveGood(n, y, sx, sy, ctx, delta, id); DoneGood(n, y, sx, peer, act);
    case Close(ctx) => CloseContactGood(n, y, sx, sy, ctx); DoneGood(n, y, sx, peer, act);
    case SweepAll(ids, now) => SweepGood(n, y, sx, sy, ids, now); DoneGood(n, y, sx, peer, act);
    case Receive(i, ctx, autoSeed) =>
      if i < |sy| {
        ProcessInboundGood(n, y, sx, sy, i, ctx, autoSeed);
      }
    case Local(tx) =>
      if Appended(n.book, tx).Success? {
        OwnBookGood(n, y, sx, sy, tx);
        DoneGood(n, y, sx, peer, act);
      }
    case SetMembers(members) => MembersGood(n, y, sx, sy, members); DoneGood(n, y, sx, peer, act);
    case Check(j) =>
      if j < |peer.posted| {
        ReconcileGood(n, y, sx, sy, peer.posted[j].checkpoint);
        DoneGood(n, y, sx, peer, act);
      }
    case Post =>
    case Restart =>
  }

  lemma DoneGood(n: NodeState, y: P.Core, sx: Sent, peer: Side, act: Action)
    requires n.outSeq == |sx|
    requires var r := Act(n, peer, act); Good(r.node, y, With(sx, r.out), peer.sent)
    ensures var r := Act(n, peer, act); Good(r.node, y, SentAfter(sx, n, r.node, r.out), peer.sent)
  {
    hide Good, Act;
    var r := Act(n, peer, act);
    SentAfterIs(n, r.node, y, sx, peer.sent, r.out);
  }

  // ----- what may be in memory but not stored -----

  predicate Lapsed(t: Transfer, t': Transfer) {
    t' == t || ((t.state.Proposed? || t.state.Accepted?) && t' == t.(state := Expired))
  }

  /** The same contact up to its lock, and up to the root a restart adds to a pending one. */
  ghost predicate SameContact(c: Contact, c': Contact) {
    && Unlocked(c').(roots := c.roots) == Unlocked(c)
    && (c'.roots == c.roots || (c.history == [] && c.roots == [] && c'.roots == [Zero]))
  }

  /** m is d after some expiries: no money, message or position is ahead of what was stored. */
  ghost predicate Behind(d: NodeState, m: NodeState) {
    && (d.contact.Some? <==> m.contact.Some?)
    && (d.contact.Some? ==> SameContact(d.contact.value, m.contact.value))
    && m.transfers.Keys == d.transfers.Keys
    && (forall t :: t in d.transfers ==> Lapsed(d.transfers[t], m.transfers[t]))
    && m.(contact := None, transfers := map[]) == d.(contact := None, transfers := map[])
  }

  lemma BehindOn(d: NodeState, m: NodeState, m': NodeState)
    requires Behind(d, m) && Behind(m, m')
    ensures Behind(d, m')
  {
  }

  lemma ExpireBehind(n: NodeState, id: Id, now: int)
    ensures Behind(n, ExpireIfDue(n, id, now))
  {
  }

  lemma ReleaseBehind(n: NodeState, now: int)
    ensures Behind(n, n) && Behind(n, ReleaseIfBusyExpired(n, now))
  {
    hide ExpireIfDue;
    if n.contact.Some? && n.contact.value.busyTransfer.Some? {
      ExpireBehind(n, n.contact.value.busyTransfer.value, now);
    }
  }

  lemma RestoredBehind(n: NodeState)
    requires Linked(n)
    ensures Behind(n, Restored(n)) && ContactGrows(n, Restored(n)) && Linked(Restored(n))
    ensures CoreOf(Restored(n)) == CoreOf(n) && Owed(Restored(n)) == Owed(n)
  {
    hide Reserves, RootOf;
    var n' := Restored(n);
    if n' != n {
      assert n'.contact.value.roots == [Zero];
    }
  }

  /** Whatever an action changes without storing it is an expiry. */
  lemma UnstoredBehind(n: NodeState, peer: Side, act: Action)
    ensures var r := Act(n, peer, act); !r.stored ==> Behind(n, r.node) && r.node.outSeq == n.outSeq
  {
    hide ReleaseIfBusyExpired, Behind, Sweep, Route, PriceOutgoing, Validate, Appended, AbortTransfer, OpenContact,
      CloseContact;
    match act
    case Start(ctx, _, _, _, _) => ReleaseBehind(n, ctx.now); BehindSends(n, ReleaseIfBusyExpired(n, ctx.now));
    case Adjust(ctx, _, _) => ReleaseBehind(n, ctx.now); BehindSends(n, ReleaseIfBusyExpired(n, ctx.now));
    case Open(ctx, seed, id) => ReleaseBehind(n, 0); Refused(n, ctx, seed, id);
    case Abort(ctx, id) => ReleaseBehind(n, 0); Refused(n, ctx, 0, id);
    case Close(ctx) => ReleaseBehind(n, 0); Refused(n, ctx, 0, Uuid(""));
    case _ => ReleaseBehind(n, 0);
  }

  lemma BehindSends(n: NodeState, m: NodeState)
    requires Behind(n, m)
    ensures m.outSeq == n.outSeq
  {
  }

  lemma Refused(n: NodeState, ctx: Ctx, seed: int, id: Id)
    ensures !OpenContact(n, ctx, seed, id).ok ==> OpenContact(n, ctx, seed, id).node == n
    ensures !AbortTransfer(n, ctx, id).ok ==> AbortTransfer(n, ctx, id).node == n
    ensures !CloseContact(n, ctx).ok ==> CloseContact(n, ctx).node == n
  {
  }

  // ----- growth of one action -----

  lemma MarkGrows(n: NodeState, cp: Checkpoint, members: set<string>)
    ensures Grows(n, Reconcile(n, cp)) && Grows(n, n.(members := members))
  {
    hide Freezes;
  }

  lemma ProcessedGrows(n: NodeState, env: Envelope, out: Option<Envelope>)
    ensures Grows(n, Processed(n, env, out))
  {
  }

  lemma InboundGrows(n: NodeState, y: P.Core, sx: Sent, sy: Sent, i: nat, ctx: Ctx, autoSeed: int)
    requires Good(n, y, sx, sy) && i < |sy| && Numbered(sy)
    ensures Grows(n, ProcessInbound(n, sy[i], ctx, autoSeed).node)
  {
    hide Good, Route, M.Readable, Grows, Processed;
    var env := sy[i];
    SameGrows(n);
    if Validate(env, n.seen, n.lastSeq, ctx.now).Ok? {
      AtGood(n, y, sx, sy, i);
      GoodLinked(n, y, sx, sy);
      if env.body.TransferPropose? {
        NotKnown(At(n, i + 1), y, sx, sy, i);
      }
      var o := Route(n, env.body, ctx, autoSeed);
      RouteGrows(n, env.body, ctx, autoSeed);
      ProcessedGrows(o.node, env, o.out);
      GrowsOn(n, o.node, Processed(o.node, env, o.out));
    }
  }

  lemma GoodLinked(n: NodeState, y: P.Core, sx: Sent, sy: Sent)
    requires Good(n, y, sx, sy)
    ensures Linked(n)
  {
    hide P.Inv, Kept, Logged, Linked;
  }

  lemma ActGrows(n: NodeState, y: P.Core, sx: Sent, peer: Side, act: Action)
    requires Good(n, y, sx, peer.sent) && Numbered(peer.sent)
    requires Draws(act) ==> act.id !in n.transfers
    ensures Grows(n, Act(n, peer, act).node)
  {
    hide Good, OpenContact, StartTransfer, AbortTransfer, AdjustReserve, CloseContact, Sweep, ProcessInbound, Appended,
      Reconcile, Grows, Numbered;
    SameGrows(n);
    match act
    case Open(ctx, seed, id) => OpenCloseGrow(n, ctx, seed, id);
    case Start(ctx, from, to, src, id) => StartGrows(n, ctx, from, to, src, id);
    case Abort(ctx, id) => AbortGrows(n, ctx, id);
    case Adjust(ctx, delta, id) => AdjustReserveGrows(n, ctx, delta, id);
    case Close(ctx) => OpenCloseGrow(n, ctx, 0, Uuid(""));
    case SweepAll(ids, now) => SweepGrows(n, ids, now);
    case Receive(i, ctx, autoSeed) =>
      if i < |peer.sent| {
        InboundGrows(n, y, sx, peer.sent, i, ctx, autoSeed);
      }
    case Local(tx) => LocalGrows(n, tx);
    case SetMembers(members) => MarkGrows(n, Checkpoint(Uuid(""), 0, Zero, 0), members);
    case Check(j) =>
      if j < |peer.posted| {
        MarkGrows(n, peer.posted[j].checkpoint, {});
      }
    case Post =>
    case Restart =>
  }

  lemma LocalGrows(n: NodeState, tx: Tx)
    ensures Appended(n.book, tx).Success? ==> Grows(n, n.(book := Appended(n.book, tx).value))
  {
    hide Appended;
    if Appended(n.book, tx).Success? {
      AppendedGrows(n.book, tx);
    }
  }
}
