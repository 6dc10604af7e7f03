/** One node's side of a contact as a value, and every handler and operation as a function on
    it.  The classes of Nodes.dfy do the same in place; the protocol results are proved here. */
module NodeSpec {
  import opened Wrappers
  import opened PoolPricing
  import opened ChannelHistory
  import opened Ledgers
  import opened TransferStates
  import opened Messages

  /** A contact.  history is the list of committed operations the root and the reserves stand
      for; the code never reads it. */
  datatype Contact = Contact(
    id: Id,
    iAmProposer: bool,
    active: bool,
    closed: bool,
    diverged: bool,
    proposerSeed: int,
    responderSeed: int,
    myReserveOfPeer: int,
    peerReserveOfMe: int,
    opSeq: int,
    root: Digest,
    roots: seq<Digest>,
    busy: bool,
    busyTransfer: Option<Id>,
    pendingAdjust: Option<Id>,
    pendingDelta: int,
    appliedAdjusts: set<Id>,
    history: seq<Op>
  )

  datatype Transfer = Transfer(
    contactId: Id,
    outgoing: bool,
    state: State,
    opSeq: int,
    fromMember: string,
    toMember: string,
    src: int,
    dst: int,
    expires: int,
    receipt: Option<Envelope>
  )

  /** The state a node keeps for one peer; members holds the names of the active ones. */
  datatype NodeState = NodeState(
    peerHost: string,
    contact: Option<Contact>,
    transfers: map<Id, Transfer>,
    book: Book,
    members: set<string>,
    outSeq: nat,
    lastSeq: nat,
    seen: set<Id>,
    replies: map<Id, Envelope>
  )

  /** What a step takes from outside: the node's clock and the ids it draws. */
  datatype Ctx = Ctx(now: int, envelopeId: Id, txId: Id)

  function StateOf(n: NodeState, t: Id): Option<State> {
    if t in n.transfers then Some(n.transfers[t].state) else None
  }

  datatype Outcome = Outcome(node: NodeState, out: Option<Envelope>)

  // ----- contact bookkeeping -----

  function Padded(roots: seq<Digest>, n: nat): seq<Digest> {
    if |roots| >= n then roots else roots + seq(n - |roots|, i => Zero)
  }

  function RecordRoot(c: Contact): Contact {
    if c.opSeq < 0 then c else c.(roots := Padded(c.roots, c.opSeq + 1)[c.opSeq := c.root])
  }

  function ApplySeed(c: Contact): Contact {
    RecordRoot(c.(root := ChannelNext(ChannelRoot0(c.id), "seed", c.id, c.proposerSeed, c.responderSeed),
                  opSeq := 0,
                  history := [Seeded(c.id, c.proposerSeed, c.responderSeed)]))
  }

  function ApplyTransfer(c: Contact, id: Id, src: int, dst: int, byProposer: bool): Contact {
    RecordRoot(c.(root := ChannelNext(c.root, "transfer", id, src, dst),
                  opSeq := c.opSeq + 1,
                  history := c.history + [Transferred(id, byProposer, src, dst)]))
  }

  function ApplyAdjust(c: Contact, id: Id, delta: int, byProposer: bool): Contact {
    RecordRoot(c.(root := ChannelNext(c.root, "adjust", id, delta, 0),
                  opSeq := c.opSeq + 1,
                  history := c.history + [Adjusted(id, byProposer, delta)]))
  }

  function Unlocked(c: Contact): Contact { c.(busy := false, busyTransfer := None) }

  function LockedBy(c: Contact, id: Id): Contact { c.(busy := true, busyTransfer := Some(id)) }

  function PriceOutgoing(c: Contact, src: int): Result<int, PriceError> {
    PoolPrice(c.myReserveOfPeer, c.peerReserveOfMe, src)
  }

  function PriceIncoming(c: Contact, src: int): Result<int, PriceError> {
    PoolPrice(c.peerReserveOfMe, c.myReserveOfPeer, src)
  }

  // ----- node helpers -----

  /** The part of an address before its first '@'. */
  function LocalPart(addr: string): string {
    if addr == "" || addr[0] == '@' then "" else [addr[0]] + LocalPart(addr[1..])
  }

  function Wallet(n: NodeState): Account { NodeWallet(n.peerHost) }

  function MemberAccount(addr: string): Account { Member(LocalPart(addr)) }

  function Send(n: NodeState, ctx: Ctx, body: Body): Outcome {
    Outcome(n.(outSeq := n.outSeq + 1), Some(Envelope(ctx.envelopeId, n.outSeq + 1, ctx.now, body)))
  }

  function SendError(n: NodeState, ctx: Ctx, code: ErrorCode): Outcome { Send(n, ctx, ErrorReply(code)) }

  function Quiet(n: NodeState): Outcome { Outcome(n, None) }

  function TwoLegs(ctx: Ctx, typ: TxType, ref: Option<Id>, a: Account, x: int, b: Account, y: int): Tx {
    Tx(ctx.txId, typ, ref, ctx.now, [Entry(a, x), Entry(b, y)])
  }

  function SetState(n: NodeState, id: Id, s: State): NodeState
    requires id in n.transfers
  {
    n.(transfers := n.transfers[id := n.transfers[id].(state := s)])
  }

  /** Clear the lock if this transfer holds it. */
  function ReleaseFor(n: NodeState, id: Id): NodeState {
    if n.contact.Some? && n.contact.value.busyTransfer == Some(id)
    then n.(contact := Some(Unlocked(n.contact.value)))
    else n
  }

  predicate OwnsContact(n: NodeState, contactId: Id) { n.contact.Some? && n.contact.value.id == contactId }

  // ----- expiry -----

  predicate Due(n: NodeState, id: Id, now: int) {
    id in n.transfers && (n.transfers[id].state.Proposed? || n.transfers[id].state.Accepted?)
    && now > n.transfers[id].expires
  }

  function ExpireIfDue(n: NodeState, id: Id, now: int): NodeState {
    if !Due(n, id, now) then n
    else match Transition(n.transfers[id].state, Expire)
         case None => n
         case Some(s) =>
           var n' := SetState(n, id, s);
           if OwnsContact(n, n.transfers[id].contactId) then ReleaseFor(n', id) else n'
  }

  function ReleaseIfBusyExpired(n: NodeState, now: int): NodeState {
    if n.contact.Some? && n.contact.value.busy && n.contact.value.busyTransfer.Some?
    then ExpireIfDue(n, n.contact.value.busyTransfer.value, now)
    else n
  }

  /** A sweep expires every due transfer. */
  function Sweep(n: NodeState, ids: seq<Id>, now: int): NodeState {
    if ids == [] then n else ExpireIfDue(Sweep(n, ids[..|ids| - 1], now), ids[|ids| - 1], now)
  }

  /** The listed transfers that a sweep finds due. */
  function Overdue(n: NodeState, ids: seq<Id>, now: int): set<Id> { set id | id in ids && Due(n, id, now) }

  /** Expiring makes one transfer no longer due, and no other. */
  lemma ExpiredDue(n: NodeState, id: Id, now: int, t: Id)
    ensures Due(ExpireIfDue(n, id, now), t, now) <==> Due(n, t, now) && t != id
  {
  }

  lemma {:induction false} SweptDue(n: NodeState, ids: seq<Id>, now: int, t: Id)
    ensures Due(Sweep(n, ids, now), t, now) <==> Due(n, t, now) && t !in ids
  {
    hide Due, ExpireIfDue;
    if ids != [] {
      var front, id := ids[..|ids| - 1], ids[|ids| - 1];
      SweptDue(n, front, now, t);
      ExpiredDue(Sweep(n, front, now), id, now, t);
      assert t in ids <==> t in front || t == id;
    }
  }

  /** The next listed transfer adds to the sweep's count exactly if it is due then. */
  lemma OverdueNext(n: NodeState, ids: seq<Id>, i: nat, now: int)
    requires i < |ids|
    ensures |Overdue(n, ids[..i + 1], now)| ==
            |Overdue(n, ids[..i], now)| + if Due(Sweep(n, ids[..i], now), ids[i], now) then 1 else 0
  {
    hide Due, Sweep;
    SweptDue(n, ids[..i], now, ids[i]);
    assert ids[..i + 1] == ids[..i] + [ids[i]];
    var before, after := Overdue(n, ids[..i], now), Overdue(n, ids[..i + 1], now);
    if Due(n, ids[i], now) && ids[i] !in ids[..i] {
      assert ids[i] !in before && after == before + {ids[i]};
    } else {
      assert after == before by {
        forall t | t in after ensures t in before { }
      }
    }
  }

  // ----- opening and closing -----

  /** The result of a public operation: ok means it took effect and was stored. */
  datatype Done = Done(node: NodeState, out: Option<Envelope>, ok: bool)

  function Did(o: Outcome): Done { Done(o.node, o.out, true) }

  function Refuse(n: NodeState): Done { Done(n, None, false) }

  function FreshContact(id: Id, proposer: bool, proposerSeed: int, responderSeed: int): Contact {
    Contact(id, proposer, false, false, false, proposerSeed, responderSeed, 0, 0, 0, Zero, [], false, None, None,
            0, {}, [])
  }

  function OpenContact(n: NodeState, ctx: Ctx, seed: int, id: Id): Done {
    if seed <= 0 || n.contact.Some? then Refuse(n)
    else Did(Send(n.(contact := Some(FreshContact(id, true, seed, 0))), ctx, ContactPropose(id, seed)))
  }

  function SeedLeg(n: NodeState, ctx: Ctx, amount: int): Result<Book, LedgerError> {
    Appended(n.book, TwoLegs(ctx, ContactSeed, None, Wallet(n), amount, Issuance, -amount))
  }

  function HandleContactPropose(n: NodeState, b: Body, ctx: Ctx, autoSeed: int): Outcome
    requires b.ContactPropose?
  {
    if autoSeed <= 0 then SendError(n, ctx, Refused)
    else if b.mySeed <= 0 then SendError(n, ctx, InvalidPayload)
    else if n.contact.Some? then SendError(n, ctx, DuplicateContact)
    else match SeedLeg(n, ctx, autoSeed)
         case Failure(_) => SendError(n, ctx, Internal)
         case Success(book) =>
           var c := FreshContact(b.contactId, false, b.mySeed, autoSeed)
                    .(myReserveOfPeer := autoSeed, peerReserveOfMe := b.mySeed);
           Send(n.(book := book, contact := Some(ApplySeed(c).(active := true))), ctx,
                ContactAccept(b.contactId, autoSeed))
  }

  function HandleContactAccept(n: NodeState, b: Body, ctx: Ctx): Outcome
    requires b.ContactAccept?
  {
    if !OwnsContact(n, b.contactId) || !n.contact.value.iAmProposer then SendError(n, ctx, NoContact)
    else if n.contact.value.active then Quiet(n)
    else if b.mySeed <= 0 then SendError(n, ctx, InvalidPayload)
    else
      var c := n.contact.value.(responderSeed := b.mySeed);
      match SeedLeg(n, ctx, c.proposerSeed)
      case Failure(_) => SendError(n.(contact := Some(c)), ctx, Internal)
      case Success(book) =>
        var c' := c.(myReserveOfPeer := c.proposerSeed, peerReserveOfMe := c.responderSeed);
        Quiet(n.(book := book, contact := Some(ApplySeed(c').(active := true))))
  }

  function CloseContact(n: NodeState, ctx: Ctx): Done {
    if n.contact.None? then Refuse(n)
    else
      var c := n.contact.value.(closed := true);
      Did(Send(n.(contact := Some(c)), ctx, ContactClose(c.id)))
  }

  function HandleContactClose(n: NodeState): Outcome {
    if n.contact.None? then Quiet(n) else Quiet(n.(contact := Some(n.contact.value.(closed := true))))
  }

  function HandleContactUpdate(n: NodeState, ctx: Ctx): Outcome {
    if n.contact.None? then SendError(n, ctx, NoContact) else Quiet(n)
  }

  // ----- transfers -----

  const HOUR := 3600

  function StartTransfer(n: NodeState, ctx: Ctx, from: string, to: string, src: int, id: Id): Done {
    if n.contact.None? || !n.contact.value.active || n.contact.value.closed || n.contact.value.diverged then Refuse(n)
    else
      var n := ReleaseIfBusyExpired(n, ctx.now);
      if n.contact.None? || n.contact.value.busy then Refuse(n)
      else if src <= 0 || LocalPart(from) !in n.members then Refuse(n)
      else if Get(n.book.balances, MemberAccount(from)) < src then Refuse(n)
      else
        var c := n.contact.value;
        match PriceOutgoing(c, src)
        case Failure(_) => Refuse(n)
        case Success(dst) =>
          var t := Transfer(c.id, true, Proposed, c.opSeq, from, to, src, dst, ctx.now + HOUR, None);
          Did(Send(n.(transfers := n.transfers[id := t], contact := Some(LockedBy(c, id))), ctx,
                   TransferPropose(id, c.id, c.opSeq, from, to, src, dst, t.expires)))
  }

  function RejectTransfer(n: NodeState, ctx: Ctx, id: Id, code: RejectCode): Outcome {
    Send(n, ctx, TransferReject(id, code))
  }

  function HandleTransferPropose(n: NodeState, b: Body, ctx: Ctx): Outcome
    requires b.TransferPropose?
  {
    var id := b.transferId;
    if n.contact.None? || !n.contact.value.active || n.contact.value.closed then
      RejectTransfer(n, ctx, id, UnknownContact)
    else if n.contact.value.diverged then RejectTransfer(n, ctx, id, Frozen)
    else
      var n := ReleaseIfBusyExpired(n, ctx.now);
      if n.contact.None? || n.contact.value.busy then RejectTransfer(n, ctx, id, Busy)
      else
        var c := n.contact.value;
        if b.opSeq != c.opSeq then RejectTransfer(n, ctx, id, StalePool)
        else if LocalPart(b.toMember) !in n.members then RejectTransfer(n, ctx, id, UnknownMember)
        else if b.src <= 0 then RejectTransfer(n, ctx, id, Malformed)
        else match PriceIncoming(c, b.src)
             case Failure(_) => RejectTransfer(n, ctx, id, BadPrice)
             case Success(want) =>
               if want != b.dst then RejectTransfer(n, ctx, id, PriceMismatch)
               else
                 var t := Transfer(c.id, false, Accepted, b.opSeq, b.fromMember, b.toMember, b.src, b.dst,
                                   b.expires, None);
                 Send(n.(transfers := n.transfers[id := t], contact := Some(LockedBy(c, id))), ctx, TransferAccept(id))
  }

  function HandleTransferAccept(n: NodeState, b: Body, ctx: Ctx): Outcome
    requires b.TransferAccept?
  {
    var id := b.transferId;
    if id !in n.transfers || !n.transfers[id].outgoing then SendError(n, ctx, UnknownTransfer)
    else if !OwnsContact(n, n.transfers[id].contactId) then SendError(n, ctx, WrongSender)
    else if n.transfers[id].state.Committed? || n.transfers[id].state.Settled? then Quiet(n)
    else if Due(n, id, ctx.now) then Send(ExpireIfDue(n, id, ctx.now), ctx, TransferAbort(id))
    else match Transition(n.transfers[id].state, Accept)
         case None => SendError(n, ctx, BadState)
         case Some(s) => CommitOutgoing(SetState(n, id, s), id, ctx)
  }

  /** The payer's leg: append it, move the pool, and send the commit. */
  function CommitOutgoing(n: NodeState, id: Id, ctx: Ctx): Outcome
    requires id in n.transfers && n.contact.Some? && n.transfers[id].state.Accepted?
  {
    var t, c := n.transfers[id], n.contact.value;
    match Appended(n.book, TwoLegs(ctx, TransferOut, Some(id), MemberAccount(t.fromMember), -t.src, Wallet(n), t.src))
    case Failure(_) => SendError(n, ctx, Internal)
    case Success(book) =>
      var c' := c.(myReserveOfPeer := c.myReserveOfPeer + t.src, peerReserveOfMe := c.peerReserveOfMe - t.dst);
      var n' := n.(book := book, contact := Some(ApplyTransfer(c', id, t.src, t.dst, c.iAmProposer)));
      Send(SetState(n', id, Transition(t.state, Commit).value), ctx, TransferCommit(id))
  }

  function HandleTransferCommit(n: NodeState, b: Body, ctx: Ctx): Outcome
    requires b.TransferCommit?
  {
    var id := b.transferId;
    if id !in n.transfers || n.transfers[id].outgoing then SendError(n, ctx, UnknownTransfer)
    else if !OwnsContact(n, n.transfers[id].contactId) then SendError(n, ctx, WrongSender)
    else if n.transfers[id].state.Settled? || n.transfers[id].state.Committed? then
      Outcome(n, n.transfers[id].receipt)
    else match Transition(n.transfers[id].state, Commit)
         case None => SendError(n, ctx, BadState)
         case Some(s) => SettleIncoming(SetState(n, id, s), id, ctx)
  }

  /** A node after sending the receipt of a transfer, and keeping it for retries. */
  function Receipted(n: NodeState, id: Id, ctx: Ctx): Outcome
    requires id in n.transfers
  {
    var o := Send(n, ctx, TransferReceipt(id));
    Outcome(o.node.(transfers := o.node.transfers[id := o.node.transfers[id].(receipt := o.out)]), o.out)
  }

  /** The payee's leg: append it, move the pool, unlock, and settle; None if the ledger refuses. */
  function PaidIn(n: NodeState, id: Id, ctx: Ctx): Option<NodeState>
    requires id in n.transfers && n.contact.Some? && n.transfers[id].state.Committed?
  {
    var t, c := n.transfers[id], n.contact.value;
    match Appended(n.book, TwoLegs(ctx, TransferIn, Some(id), Wallet(n), -t.dst, MemberAccount(t.toMember), t.dst))
    case Failure(_) => None
    case Success(book) =>
      var c' := c.(peerReserveOfMe := c.peerReserveOfMe + t.src, myReserveOfPeer := c.myReserveOfPeer - t.dst);
      var n' := n.(book := book, contact := Some(Unlocked(ApplyTransfer(c', id, t.src, t.dst, !c.iAmProposer))));
      Some(SetState(n', id, Transition(t.state, Receipt).value))
  }

  /** Pay out, and answer with the receipt. */
  function SettleIncoming(n: NodeState, id: Id, ctx: Ctx): Outcome
    requires id in n.transfers && n.contact.Some? && n.transfers[id].state.Committed?
  {
    match PaidIn(n, id, ctx)
    case None => SendError(n, ctx, Internal)
    case Some(n') => Receipted(n', id, ctx)
  }

  function HandleTransferReceipt(n: NodeState, b: Body, ctx: Ctx): Outcome
    requires b.TransferReceipt?
  {
    var id := b.transferId;
    if id !in n.transfers || !n.transfers[id].outgoing then SendError(n, ctx, UnknownTransfer)
    else if !OwnsContact(n, n.transfers[id].contactId) then SendError(n, ctx, WrongSender)
    else if n.transfers[id].state.Settled? then Quiet(n)
    else match Transition(n.transfers[id].state, Receipt)
         case None => SendError(n, ctx, BadState)
         case Some(s) => Quiet(ReleaseFor(SetState(n, id, s), id))
  }

  function HandleTransferReject(n: NodeState, b: Body): Outcome
    requires b.TransferReject?
  {
    var id := b.transferId;
    if id !in n.transfers || !n.transfers[id].outgoing || !OwnsContact(n, n.transfers[id].contactId) then Quiet(n)
    else match Transition(n.transfers[id].state, Reject)
         case None => Quiet(n)
         case Some(s) => Quiet(ReleaseFor(SetState(n, id, s), id))
  }

  function HandleTransferAbort(n: NodeState, b: Body): Outcome
    requires b.TransferAbort?
  {
    var id := b.transferId;
    if id !in n.transfers || n.transfers[id].outgoing || !OwnsContact(n, n.transfers[id].contactId) then Quiet(n)
    else match Transition(n.transfers[id].state, Abort)
         case None => Quiet(n)
         case Some(s) => Quiet(ReleaseFor(SetState(n, id, s), id))
  }

  function AbortTransfer(n: NodeState, ctx: Ctx, id: Id): Done {
    if id !in n.transfers || !n.transfers[id].outgoing then Refuse(n)
    else match Transition(n.transfers[id].state, Abort)
         case None => Refuse(n)
         case Some(s) =>
           var n' := SetState(n, id, s);
           if OwnsContact(n, n.transfers[id].contactId) then Did(Send(ReleaseFor(n', id), ctx, TransferAbort(id)))
           else Done(n', None, true)
  }

  // ----- reserve adjustments -----

  function AdjustReserve(n: NodeState, ctx: Ctx, delta: int, id: Id): Done {
    if n.contact.None? || !n.contact.value.active || n.contact.value.closed || n.contact.value.diverged then Refuse(n)
    else
      var n := ReleaseIfBusyExpired(n, ctx.now);
      if n.contact.None? || n.contact.value.busy then Refuse(n)
      else if delta == 0 || n.contact.value.myReserveOfPeer + delta < 0 then Refuse(n)
      else
        var c := n.contact.value;
        Did(Send(n.(contact := Some(LockedBy(c, id).(pendingAdjust := Some(id), pendingDelta := delta))), ctx,
                 Body.ReserveAdjust(c.id, c.opSeq, id, delta)))
  }

  function HandleReserveAdjust(n: NodeState, b: Body, ctx: Ctx): Outcome
    requires b.ReserveAdjust?
  {
    if n.contact.None? || !n.contact.value.active || n.contact.value.closed then SendError(n, ctx, NoContact)
    else if n.contact.value.diverged then SendError(n, ctx, ContactFrozen)
    else
      var n := ReleaseIfBusyExpired(n, ctx.now);
      if n.contact.None? || n.contact.value.busy then SendError(n, ctx, ContactBusy)
      else
        var c := n.contact.value;
        if b.opSeq != c.opSeq then SendError(n, ctx, StaleOp)
        else if b.myDelta == 0 then SendError(n, ctx, InvalidPayload)
        else if b.adjustId in c.appliedAdjusts then Send(n, ctx, ReserveAccept(c.id, b.adjustId))
        else if c.peerReserveOfMe + b.myDelta < 0 then SendError(n, ctx, InsufficientReserve)
        else
          var c' := ApplyAdjust(c.(peerReserveOfMe := c.peerReserveOfMe + b.myDelta), b.adjustId, b.myDelta,
                                !c.iAmProposer);
          Send(n.(contact := Some(c'.(appliedAdjusts := c'.appliedAdjusts + {b.adjustId}))), ctx,
               ReserveAccept(c.id, b.adjustId))
  }

  function HandleReserveAccept(n: NodeState, b: Body, ctx: Ctx): Outcome
    requires b.ReserveAccept?
  {
    if n.contact.None? then SendError(n, ctx, NoContact)
    else if n.contact.value.pendingAdjust != Some(b.adjustId) then Quiet(n)
    else
      var c := n.contact.value;
      match Appended(n.book, TwoLegs(ctx, TxType.ReserveAdjust, Some(b.adjustId), Wallet(n), c.pendingDelta,
                                     Treasury, -c.pendingDelta))
      case Failure(_) => SendError(n, ctx, Internal)
      case Success(book) =>
        var c' := ApplyAdjust(c.(myReserveOfPeer := c.myReserveOfPeer + c.pendingDelta), b.adjustId, c.pendingDelta,
                              c.iAmProposer);
        Quiet(n.(book := book, contact := Some(Unlocked(c').(pendingAdjust := None, pendingDelta := 0))))
  }

  // ----- inbound -----

  function Route(n: NodeState, b: Body, ctx: Ctx, autoSeed: int): Outcome {
    match b
    case ContactPropose(_, _) => HandleContactPropose(n, b, ctx, autoSeed)
    case ContactAccept(_, _) => HandleContactAccept(n, b, ctx)
    case ContactUpdate(_) => HandleContactUpdate(n, ctx)
    case ContactClose(_) => HandleContactClose(n)
    case TransferPropose(_, _, _, _, _, _, _, _) => HandleTransferPropose(n, b, ctx)
    case TransferAccept(_) => HandleTransferAccept(n, b, ctx)
    case TransferReject(_, _) => HandleTransferReject(n, b)
    case TransferCommit(_) => HandleTransferCommit(n, b, ctx)
    case TransferReceipt(_) => HandleTransferReceipt(n, b, ctx)
    case TransferAbort(_) => HandleTransferAbort(n, b)
    case ReserveAdjust(_, _, _, _) => HandleReserveAdjust(n, b, ctx)
    case ReserveAccept(_, _) => HandleReserveAccept(n, b, ctx)
    case Ping => Send(n, ctx, Pong)
    case Pong => Quiet(n)
    case ErrorReply(_) => Quiet(n)
    case Unknown => SendError(n, ctx, UnknownType)
  }

  /** Mark an envelope as processed, remembering the answer given. */
  function Processed(n: NodeState, env: Envelope, out: Option<Envelope>): NodeState {
    n.(seen := n.seen + {env.id},
       lastSeq := if env.seqNo > n.lastSeq then env.seqNo else n.lastSeq,
       replies := if out.Some? then n.replies[env.id := out.value] else n.replies)
  }

  datatype Received = Received(node: NodeState, verdict: Verdict, out: Option<Envelope>)

  function ProcessInbound(n: NodeState, env: Envelope, ctx: Ctx, autoSeed: int): Received {
    var v := Validate(env, n.seen, n.lastSeq, ctx.now);
    if v.Duplicate? then Received(n, v, if env.id in n.replies then Some(n.replies[env.id]) else None)
    else if !v.Ok? then Received(n, v, None)
    else
      var o := Route(n, env.body, ctx, autoSeed);
      Received(Processed(o.node, env, o.out), v, o.out)
  }

  /** Feeding fetched envelopes through the gate in their order, counting the accepted ones. */
  function Polled(n: NodeState, envs: seq<Envelope>, ctxs: seq<Ctx>, autoSeed: int): (NodeState, nat)
    requires |ctxs| == |envs|
  {
    if envs == [] then (n, 0)
    else
      var k := |envs| - 1;
      var (m, count) := Polled(n, envs[..k], ctxs[..k], autoSeed);
      var r := ProcessInbound(m, envs[k], ctxs[k], autoSeed);
      (r.node, count + if r.verdict.Ok? then 1 else 0)
  }

  /** A stored contact without a root at its operation number gets its current root there, which
      for a contact that is still pending is the zero root. */
  function Backfilled(c: Contact): Contact { if |c.roots| <= c.opSeq then RecordRoot(c) else c }

  /** What a node makes of its own snapshot when it starts again. */
  function Restored(n: NodeState): NodeState {
    if n.contact.Some? then n.(contact := Some(Backfilled(n.contact.value))) else n
  }

  // ----- checkpoints -----

  datatype Checkpoint = Checkpoint(contactId: Id, opSeq: int, root: Digest, lastSeq: int)

  /** What a node publishes about its contact, pending or active. */
  function Publish(n: NodeState): Option<Checkpoint> {
    if n.contact.None? then None
    else Some(Checkpoint(n.contact.value.id, n.contact.value.opSeq, n.contact.value.root, n.lastSeq))
  }

  predicate Freezes(n: NodeState, cp: Checkpoint) {
    && n.contact.Some? && n.contact.value.id == cp.contactId
    && 0 <= cp.opSeq <= n.contact.value.opSeq && cp.opSeq < |n.contact.value.roots|
    && cp.root != n.contact.value.roots[cp.opSeq]
  }

  function Reconcile(n: NodeState, cp: Checkpoint): NodeState {
    if Freezes(n, cp) then n.(contact := Some(n.contact.value.(diverged := true))) else n
  }
}
