/** Two nodes on a bad network.  Everything ever sent stays deliverable, in any order and any
    number of times; clocks are arbitrary; each node may fall back to what it last stored. */
module Systems {
  import opened Wrappers
  import opened ChannelHistory
  import opened Ledgers
  import opened Supply
  import opened Messages
  import opened NodeSpec
  import opened NodeInvariant
  import opened NodeRecords
  import opened NodeSteps
  import M = ProtocolMoves

  /** A published checkpoint, and whether its contact was active when it was taken. */
  datatype Posted = Posted(checkpoint: Checkpoint, active: bool)

  /** One node in memory and as last stored, with everything it ever sent and published. */
  datatype Side = Side(mem: NodeState, disk: NodeState, sent: Sent, posted: seq<Posted>)

  datatype System = System(a: Side, b: Side)

  datatype Action =
    | Open(ctx: Ctx, seed: int, id: Id)
    | Start(ctx: Ctx, from: string, to: string, src: int, id: Id)
    | Abort(ctx: Ctx, transfer: Id)
    | Adjust(ctx: Ctx, delta: int, id: Id)
    | Close(ctx: Ctx)
    | SweepAll(ids: seq<Id>, now: int)
    | Receive(i: nat, ctx: Ctx, autoSeed: int)
    | Local(tx: Tx)
    | SetMembers(members: set<string>)
    | Check(j: nat)
    | Post
    | Restart

  /** What a node does on an action: its new state, what it answers, and whether it stored. */
  datatype Acted = Acted(node: NodeState, out: Option<Envelope>, stored: bool)

  function FromDone(d: Done): Acted { Acted(d.node, d.out, d.ok) }

  function Act(n: NodeState, peer: Side, act: Action): Acted
  {
    match act
    case Open(ctx, seed, id) => FromDone(OpenContact(n, ctx, seed, id))
    case Start(ctx, from, to, src, id) => FromDone(StartTransfer(n, ctx, from, to, src, id))
    case Abort(ctx, id) => FromDone(AbortTransfer(n, ctx, id))
    case Adjust(ctx, delta, id) => FromDone(AdjustReserve(n, ctx, delta, id))
    case Close(ctx) => FromDone(CloseContact(n, ctx))
    case SweepAll(ids, now) => Acted(Sweep(n, ids, now), None, Sweep(n, ids, now) != n)
    case Receive(i, ctx, autoSeed) =>
      if i >= |peer.sent| then Acted(n, None, false)
      else
        var r := ProcessInbound(n, peer.sent[i], ctx, autoSeed);
        Acted(r.node, r.out, r.verdict.Ok?)
    case Local(tx) =>
      (match Appended(n.book, tx)
       case Success(book) => Acted(n.(book := book), None, true)
       case Failure(_) => Acted(n, None, false))
    case SetMembers(members) => Acted(n.(members := members), None, true)
    case Check(j) =>
      if j >= |peer.posted| then Acted(n, None, false)
      else
        var cp := peer.posted[j].checkpoint;
        Acted(Reconcile(n, cp), None, Freezes(n, cp))
    case Post => Acted(n, None, false)
    case Restart => Acted(n, None, false)
  }

  function Posting(n: NodeState): seq<Posted> {
    match Publish(n)
    case None => []
    case Some(cp) => [Posted(cp, n.contact.value.active)]
  }

  function Step(me: Side, peer: Side, act: Action): Side
  {
    if act.Restart? then me.(mem := Restored(me.disk))
    else if act.Post? then me.(posted := me.posted + Posting(me.mem))
    else
      var r := Act(me.mem, peer, act);
      Side(r.node, if r.stored then r.node else me.disk, SentAfter(me.sent, me.mem, r.node, r.out), me.posted)
  }

  // ----- what the environment promises -----

  ghost predicate UnknownTo(n: NodeState, id: Id) { id !in n.transfers && id !in CoreOf(n).applied }

  /** A drawn identifier is one nobody has used. */
  ghost predicate Unused(me: Side, peer: Side, id: Id) {
    && UnknownTo(me.mem, id) && UnknownTo(peer.mem, id) && UnknownTo(peer.disk, id)
    && M.Unmentioned(id, me.sent) && M.Unmentioned(id, peer.sent)
  }

  /** A transaction of the node's own, shaped as its operations shape them: no transfer leg, and
      not on the peer's wallet. */
  predicate OwnTx(n: NodeState, tx: Tx) {
    && !tx.typ.TransferOut? && !tx.typ.TransferIn? && NamesWalletsOnce(tx) && Shaped(tx)
    && forall i :: 0 <= i < |tx.entries| ==> tx.entries[i].account != Wallet(n)
  }

  ghost predicate Enabled(me: Side, peer: Side, act: Action) {
    match act
    case Start(_, _, _, _, id) => Unused(me, peer, id)
    case Adjust(_, _, id) => Unused(me, peer, id)
    case Local(tx) => OwnTx(me.mem, tx)
    case _ => true
  }

  // ----- runs -----

  ghost predicate Started(n: NodeState) {
    && n.contact.None? && n.transfers == map[] && n.book == EMPTY_BOOK
    && n.outSeq == 0 && n.lastSeq == 0 && n.seen == {} && n.replies == map[]
  }

  ghost predicate InitSide(s: Side) { Started(s.mem) && s.disk == s.mem && s.sent == [] && s.posted == [] }

  ghost predicate Init(s: System) { InitSide(s.a) && InitSide(s.b) }

  ghost predicate StepsA(s: System, s': System, act: Action) {
    Enabled(s.a, s.b, act) && s' == System(Step(s.a, s.b, act), s.b)
  }

  ghost predicate StepsB(s: System, s': System, act: Action) {
    Enabled(s.b, s.a, act) && s' == System(s.a, Step(s.b, s.a, act))
  }

  ghost predicate Next(s: System, s': System) {
    exists act :: StepsA(s, s', act) || StepsB(s, s', act)
  }

  /** A run of the two nodes from their first start. */
  ghost predicate IsRun(r: seq<System>) {
    && r != [] && Init(r[0])
    && forall k :: 0 < k < |r| ==> Next(r[k - 1], r[k])
  }
}
