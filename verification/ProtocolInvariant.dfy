/** The bilateral protocol, reduced to what decides who may commit what: the two histories,
    the one lock per contact, the transfer legs, and the channel positions.  The invariant of
    two honest nodes is stated here. */
module ProtocolInvariant {
  import opened Wrappers
  import opened PoolPricing
  import opened ChannelHistory
  import opened TransferStates
  import opened Messages

  /** What a contact was opened with; responderSeed is 0 while an opening is unanswered. */
  datatype Terms = Terms(id: Id, proposer: bool, proposerSeed: int, responderSeed: int)

  datatype Leg = Leg(outgoing: bool, state: State, opSeq: int, src: int, dst: int)

  datatype Pending = Pending(id: Id, delta: int)

  datatype Core = Core(
    terms: Option<Terms>,
    hist: seq<Op>,
    lock: Option<Id>,
    pending: Option<Pending>,
    legs: map<Id, Leg>,
    applied: set<Id>,
    lastSeq: nat
  )

  // ----- one node -----

  predicate OutLive(l: Leg) { l.outgoing && (l.state.Proposed? || l.state.Committed?) }

  predicate Live(l: Leg) { OutLive(l) || (!l.outgoing && l.state.Accepted?) }

  /** The operation a leg commits, as both histories record it. */
  function LegOp(x: Core, t: Id): Op
    requires x.terms.Some? && t in x.legs
  {
    var l := x.legs[t];
    Transferred(t, l.outgoing == x.terms.value.proposer, l.src, l.dst)
  }

  /** The operation a pending adjustment of this node commits. */
  function AdjustOp(x: Core, p: Pending): Op
    requires x.terms.Some?
  {
    Adjusted(p.id, x.terms.value.proposer, p.delta)
  }

  /** The reserve this node holds itself, and the mirrored one. */
  function Mine(x: Core, pool: Pool): int
    requires x.terms.Some?
  {
    if x.terms.value.proposer then pool.proposerSide else pool.responderSide
  }

  function Theirs(x: Core, pool: Pool): int
    requires x.terms.Some?
  {
    if x.terms.value.proposer then pool.responderSide else pool.proposerSide
  }

  ghost predicate Opened(x: Core) {
    && (x.hist != [] ==>
         && x.terms.Some?
         && x.hist[0] == Seeded(x.terms.value.id, x.terms.value.proposerSeed, x.terms.value.responderSeed)
         && x.terms.value.responderSeed > 0)
    && (x.hist == [] ==> x.legs == map[] && x.pending.None? && x.applied == {} && x.lock.None?)
    && (x.terms.Some? ==> x.terms.value.proposerSeed > 0 && (!x.terms.value.proposer ==> x.hist != []))
  }

  /** The lock: held exactly while one operation is live, and naming it. */
  ghost predicate Locked(x: Core) {
    && (forall t :: t in x.legs ==> (Live(x.legs[t]) <==> x.pending.None? && x.lock == Some(t)))
    && (x.lock.Some? && x.pending.None? ==> x.lock.value in x.legs)
    && (x.pending.Some? ==> x.lock == Some(x.pending.value.id) && x.pending.value.id !in x.legs)
  }

  ghost predicate LegStates(x: Core) {
    forall t :: t in x.legs ==>
      var l := x.legs[t];
      if l.outgoing then !l.state.NoTransfer? && !l.state.Accepted?
      else l.state.Accepted? || l.state.Settled? || l.state.Aborted? || l.state.Expired?
  }

  /** A live leg is pinned to the operation number it was priced against. */
  ghost predicate Pinned(x: Core) {
    forall t :: t in x.legs ==>
      var l := x.legs[t];
      && 0 <= l.opSeq < |x.hist|
      && (l.state.Proposed? || l.state.Accepted? ==> l.opSeq + 1 == |x.hist|)
      && (l.outgoing && l.state.Committed? ==>
           l.opSeq + 2 == |x.hist| && x.terms.Some? && x.hist[|x.hist| - 1] == LegOp(x, t))
  }

  /** Every leg was priced against the reserves its operation number stands for. */
  ghost predicate Priced(x: Core) {
    forall t :: t in x.legs && x.terms.Some? && 0 <= x.legs[t].opSeq < |x.hist| ==>
      var l := x.legs[t];
      PriceFor(Reserves(x.hist[..l.opSeq + 1]), l.outgoing == x.terms.value.proposer, l.src) == Success(l.dst)
  }

  ghost predicate Covered(x: Core) {
    && (x.hist != [] ==> Reserves(x.hist).proposerSide >= 0 && Reserves(x.hist).responderSide >= 0)
    && (x.pending.Some? && x.terms.Some? ==>
         x.pending.value.delta != 0 && Mine(x, Reserves(x.hist)) + x.pending.value.delta >= 0)
  }

  /** What an operation asked of the reserves it was committed on. */
  ghost predicate Fair(h: seq<Op>, op: Op) {
    match op
    case Seeded(_, p, r) => h == [] && p > 0 && r > 0
    case Transferred(_, byProposer, src, dst) => PriceFor(Reserves(h), byProposer, src) == Success(dst)
    case Adjusted(_, _, delta) =>
      delta != 0 && Applied(Reserves(h), op).proposerSide >= 0 && Applied(Reserves(h), op).responderSide >= 0
  }

  /** Every committed operation was fair: transfers paid the pool price of their moment. */
  ghost predicate Charged(h: seq<Op>) {
    forall i :: 0 <= i < |h| ==> Fair(h[..i], h[i])
  }

  ghost predicate Local(x: Core) {
    Opened(x) && Locked(x) && LegStates(x) && Pinned(x)
  }

  /** What makes an acceptance a promise: prices and withdrawals fit the reserves. */
  ghost predicate Funded(x: Core) {
    Priced(x) && Covered(x) && Charged(x.hist)
  }

  // ----- a node and what it has sent -----

  type Sent = seq<Envelope>

  /** Messages that offer or accept an operation: never sent while an own operation is live. */
  predicate Engaging(b: Body) {
    b.TransferPropose? || b.TransferAccept? || b.ReserveAdjust? || b.ReserveAccept?
  }

  predicate Backs(x: Core, b: Body) {
    match b
    case ContactPropose(c, p) =>
      x.terms.Some? && x.terms.value.proposer && x.terms.value.id == c && x.terms.value.proposerSeed == p
    case ContactAccept(c, r) =>
      x.terms.Some? && !x.terms.value.proposer && x.terms.value.id == c && x.terms.value.responderSeed == r
    case TransferPropose(t, _, k, _, _, s, d, _) =>
      t in x.legs && x.legs[t].outgoing && x.legs[t].opSeq == k && x.legs[t].src == s && x.legs[t].dst == d
    case TransferAccept(t) => t in x.legs && !x.legs[t].outgoing
    case TransferReject(t, _) => t !in x.legs
    case TransferCommit(t) => t in x.legs && x.legs[t].outgoing
      && (x.legs[t].state.Committed? || x.legs[t].state.Settled?)
    case TransferReceipt(t) => t in x.legs && !x.legs[t].outgoing && x.legs[t].state.Settled?
    case TransferAbort(t) => t in x.legs && x.legs[t].outgoing && (x.legs[t].state.Aborted? || x.legs[t].state.Expired?)
    case ReserveAccept(_, a) => a in x.applied
    case _ => true
  }

  /** Every message a node ever sent still agrees with its state. */
  ghost predicate Backed(x: Core, sx: Sent) {
    forall i :: 0 <= i < |sx| ==> Backs(x, sx[i].body)
  }

  /** Whether a message is the one that took the lock now held. */
  predicate TookLock(x: Core, b: Body) {
    (b.TransferPropose? && x.lock == Some(b.transferId)) || (b.ReserveAdjust? && x.lock == Some(b.adjustId))
  }

  ghost predicate Ordered(x: Core, sx: Sent) {
    forall i, j :: 0 <= i < j < |sx| && TookLock(x, sx[i].body) ==> !Engaging(sx[j].body)
  }

  predicate SameOffer(a: Body, b: Body) {
    (a.TransferPropose? && b.TransferPropose? && a.transferId == b.transferId)
    || (a.ReserveAdjust? && b.ReserveAdjust? && a.adjustId == b.adjustId)
  }

  ghost predicate Distinct(sx: Sent) {
    forall i, j :: 0 <= i < j < |sx| ==> !SameOffer(sx[i].body, sx[j].body)
  }

  // ----- a node x, its peer y, and the channel from x to y -----

  /** An offer y has not processed yet is one it has not acted on. */
  ghost predicate Unprocessed(y: Core, sx: Sent) {
    forall j :: y.lastSeq <= j < |sx| ==>
      && (sx[j].body.TransferPropose? ==> sx[j].body.transferId !in y.legs)
      && (sx[j].body.ReserveAdjust? ==> sx[j].body.adjustId !in y.applied)
  }

  predicate HeldOut(x: Core) {
    x.lock.Some? && x.pending.None? && x.lock.value in x.legs && x.legs[x.lock.value].outgoing
  }

  predicate InCommit(x: Core) { HeldOut(x) && x.legs[x.lock.value].state.Committed? }

  /** y has acted on the operation that x holds its lock for. */
  predicate ActedOn(x: Core, y: Core) {
    x.lock.Some? && if x.pending.Some? then x.lock.value in y.applied
                    else HeldOut(x) && x.lock.value in y.legs
  }

  /** Once y has acted on x's live operation, nothing unprocessed from x offers or accepts. */
  ghost predicate Quiet(x: Core, y: Core, sx: Sent) {
    ActedOn(x, y) ==> forall j :: y.lastSeq <= j < |sx| ==> !Engaging(sx[j].body)
  }

  /** Both ends of a transfer agree on its terms and on who pays. */
  ghost predicate Matched(x: Core, y: Core) {
    && (forall t :: t in y.legs && !y.legs[t].outgoing ==>
         && t in x.legs && x.legs[t].outgoing
         && x.legs[t].opSeq == y.legs[t].opSeq && x.legs[t].src == y.legs[t].src && x.legs[t].dst == y.legs[t].dst)
    && (forall t :: t in x.legs && t in y.legs ==> x.legs[t].outgoing != y.legs[t].outgoing)
    && (forall a :: a in x.applied ==> a !in x.legs && a !in y.legs)
  }

  /** The joint outcomes of one transfer: x pays, y is paid. */
  ghost predicate Outcome(x: Core, y: Core, t: Id)
    requires t in x.legs
  {
    match x.legs[t].state
    case Proposed => t in y.legs ==> y.legs[t].state.Accepted? || y.legs[t].state.Expired?
    case Rejected => t !in y.legs
    case Committed =>
      && t in y.legs && x.terms.Some?
      && (if y.legs[t].state.Settled? then x.hist == y.hist
          else (y.legs[t].state.Accepted? || y.legs[t].state.Expired?) && x.hist == y.hist + [LegOp(x, t)])
    case Settled => t in y.legs && y.legs[t].state.Settled?
    case _ => t in y.legs ==> !y.legs[t].state.Settled?
  }

  ghost predicate Outcomes(x: Core, y: Core) {
    forall t :: t in x.legs && x.legs[t].outgoing ==> Outcome(x, y, t)
  }

  /** An acceptance that can still be acted on finds both histories equal. */
  ghost predicate Acceptable(x: Core, y: Core, sy: Sent) {
    forall j :: x.lastSeq <= j < |sy| && sy[j].body.TransferAccept? ==>
      var t := sy[j].body.transferId;
      t in x.legs && x.legs[t].outgoing && x.legs[t].state.Proposed? ==> x.hist == y.hist
  }

  ghost predicate Adjusting(x: Core, y: Core, sx: Sent) {
    && (forall i :: 0 <= i < |sx| && sx[i].body.ReserveAdjust? ==>
         var b := sx[i].body;
         && b.adjustId !in x.legs && b.adjustId !in y.legs
         && (b.adjustId in y.applied || (x.pending == Some(Pending(b.adjustId, b.myDelta)) && b.opSeq + 1 == |x.hist|)))
    && (x.pending.Some? && x.terms.Some? && x.pending.value.id in y.applied ==>
         y.hist == x.hist + [AdjustOp(x, x.pending.value)])
  }

  /** A rejected proposal is one y never took up and never will. */
  ghost predicate Turned(y: Core, sx: Sent, sy: Sent) {
    forall i, j :: 0 <= i < |sy| && y.lastSeq <= j < |sx| ==>
      sy[i].body.TransferReject? && sx[j].body.TransferPropose? ==>
        sx[j].body.transferId != sy[i].body.transferId
  }

  /** A proposal still on its way was not rejected yet. */
  ghost predicate Undecided(x: Core, y: Core, sx: Sent) {
    forall j :: y.lastSeq <= j < |sx| && sx[j].body.TransferPropose? ==>
      var t := sx[j].body.transferId; t in x.legs ==> !x.legs[t].state.Rejected?
  }

  ghost predicate Opening(x: Core, y: Core) {
    && (y.terms.Some? && !y.terms.value.proposer ==>
         && x.terms.Some? && x.terms.value.proposer && x.terms.value.id == y.terms.value.id
         && x.terms.value.proposerSeed == y.terms.value.proposerSeed)
    && (x.terms.Some? && x.terms.value.proposer && x.hist != [] ==>
         y.terms.Some? && !y.terms.value.proposer && y.terms.value.responderSeed == x.terms.value.responderSeed)
    && (x.terms.Some? && x.terms.value.proposer && x.hist == [] && y.terms.Some? && !y.terms.value.proposer ==>
         |y.hist| == 1)
  }

  /** x is one operation ahead only while y's side of it is still open. */
  ghost predicate Ahead(x: Core, y: Core) {
    |x.hist| > |y.hist| ==>
      && |x.hist| == |y.hist| + 1 && x.hist[..|y.hist|] == y.hist
      && (y.hist == [] || InCommit(x) || (y.pending.Some? && y.pending.value.id in x.applied))
  }

  /** A proposal y may still process is priced at y's own position, unless y is itself blocked. */
  ghost predicate Current(y: Core, sx: Sent) {
    forall j :: y.hist != [] && y.lastSeq <= j < |sx| && sx[j].body.TransferPropose? ==>
      sx[j].body.opSeq + 1 == |y.hist| || y.pending.Some? || InCommit(y)
  }

  /** Proposals x sent after closing y's operation are priced at the position it leads to. */
  ghost predicate Caught(y: Core, sx: Sent) {
    forall i, j :: 0 <= i < j < |sx| && sx[j].body.TransferPropose? ==>
      && (sx[i].body.ReserveAccept? && y.pending.Some? && y.pending.value.id == sx[i].body.adjustId ==>
           sx[j].body.opSeq == |y.hist|)
      && (sx[i].body.TransferReceipt? && InCommit(y) && y.lock.value == sx[i].body.transferId ==>
           sx[j].body.opSeq + 1 == |y.hist|)
  }

  ghost predicate Self(x: Core, sx: Sent) {
    Local(x) && Backed(x, sx) && Ordered(x, sx) && Distinct(sx)
  }

  ghost predicate Pairing(x: Core, y: Core) {
    Matched(x, y) && Outcomes(x, y) && Opening(x, y) && Ahead(x, y)
  }

  ghost predicate Flow(x: Core, y: Core, sx: Sent, sy: Sent) {
    && y.lastSeq <= |sx| && Unprocessed(y, sx) && Quiet(x, y, sx) && Acceptable(x, y, sy)
    && Adjusting(x, y, sx) && Turned(y, sx, sy) && Undecided(x, y, sx) && Current(y, sx) && Caught(y, sx)
  }

  ghost predicate Agree(x: Core, y: Core) { |x.hist| == |y.hist| ==> x.hist == y.hist }

  /** The invariant of two honest nodes x and y with everything they ever sent. */
  ghost predicate Inv(x: Core, y: Core, sx: Sent, sy: Sent) {
    && Self(x, sx) && Self(y, sy)
    && Pairing(x, y) && Pairing(y, x) && Agree(x, y)
    && Flow(x, y, sx, sy) && Flow(y, x, sy, sx)
  }
}
