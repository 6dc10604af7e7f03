/** Every handler and operation of a node is a sequence of protocol moves, so it keeps the
    invariant of the pair. */
module NodeSteps {
  import opened Wrappers
  import opened ChannelHistory
  import opened Ledgers
  import opened Supply
  import opened TransferStates
  import opened Messages
  import opened NodeSpec
  import opened NodeInvariant
  import opened NodeRecords
  import P = ProtocolInvariant
  import M = ProtocolMoves

  type Sent = P.Sent

  // ----- the invariant of one node beside its peer -----

  ghost predicate Numbered(sx: Sent) { forall k :: 0 <= k < |sx| ==> sx[k].seqNo == k + 1 }

  /** The sent log is numbered from 1, and every stored answer is one of its envelopes. */
  ghost predicate Logged(n: NodeState, sx: Sent) {
    && n.outSeq == |sx| && Numbered(sx)
    && (forall id :: id in n.replies ==> n.replies[id] in sx)
    && (forall id :: id in n.transfers && n.transfers[id].receipt.Some? ==> n.transfers[id].receipt.value in sx)
  }

  /** A node n whose fields are linked to a protocol state in step with peer y, whose ledger
      shows exactly that, and whose answers are all in its sent log. */
  ghost predicate Good(n: NodeState, y: P.Core, sx: Sent, sy: Sent) {
    Linked(n) && P.Inv(CoreOf(n), y, sx, sy) && Kept(n) && Logged(n, sx)
  }

  lemma IsLocal(n: NodeState, y: P.Core, sx: Sent, sy: Sent)
    requires Good(n, y, sx, sy)
    ensures P.Local(CoreOf(n))
  {
    hide P.Local, Kept, Logged, Linked;
  }

  lemma OutSeqIs(n: NodeState, y: P.Core, sx: Sent, sy: Sent)
    requires Good(n, y, sx, sy)
    ensures n.outSeq == |sx| && Numbered(sx)
  {
    hide Kept, Linked, P.Inv, Numbered;
  }

  lemma SendLogged(n: NodeState, sx: Sent, ctx: Ctx, b: Body)
    requires Logged(n, sx)
    ensures var o := Send(n, ctx, b); Logged(o.node, With(sx, o.out))
  {
  }

  lemma SameLogged(n: NodeState, n': NodeState, sx: Sent)
    requires Logged(n, sx) && n'.outSeq == n.outSeq && n'.replies == n.replies
    requires forall id :: id in n'.transfers && n'.transfers[id].receipt.Some? ==>
               id in n.transfers && n.transfers[id].receipt == n'.transfers[id].receipt
    ensures Logged(n', sx)
  {
  }

  /** Everything sent so far, with what one step adds. */
  function With(sx: Sent, out: Option<Envelope>): Sent {
    if out.Some? then sx + [out.value] else sx
  }

  /** The sent log after a step: an answer given again is not appended again. */
  function SentAfter(sx: Sent, n: NodeState, n': NodeState, out: Option<Envelope>): Sent {
    if n'.outSeq == n.outSeq then sx else With(sx, out)
  }

  lemma SentAfterIs(n: NodeState, n': NodeState, y: P.Core, sx: Sent, sy: Sent, out: Option<Envelope>)
    requires n.outSeq == |sx| && Good(n', y, With(sx, out), sy)
    ensures SentAfter(sx, n, n', out) == With(sx, out)
  {
    hide Linked, P.Inv, Kept;
  }

  lemma NotedGood(n: NodeState, y: P.Core, sx: Sent, sy: Sent, o: Outcome)
    requires n.outSeq == |sx| && Good(o.node, y, With(sx, o.out), sy)
    ensures Good(o.node, y, SentAfter(sx, n, o.node, o.out), sy)
    ensures o.out.Some? ==> o.out.value in SentAfter(sx, n, o.node, o.out)
  {
    hide Good;
    SentAfterIs(n, o.node, y, sx, sy, o.out);
  }

  // ----- sending without engaging -----

  lemma NoteGood(n: NodeState, y: P.Core, sx: Sent, sy: Sent, ctx: Ctx, b: Body)
    requires Good(n, y, sx, sy) && !P.Engaging(b) && P.Backs(CoreOf(n), b)
    requires b.TransferReject? ==>
               forall j :: n.lastSeq <= j < |sy| ==>
                 !(sy[j].body.TransferPropose? && sy[j].body.transferId == b.transferId)
    ensures var o := Send(n, ctx, b); Good(o.node, y, With(sx, o.out), sy)
  {
    hide P.Inv, Linked, Kept, Logged;
    var o := Send(n, ctx, b);
    SendKeeps(n, ctx, b);
    M.NoteKeeps(CoreOf(n), y, sx, sy, o.out.value);
    SendLogged(n, sx, ctx, b);
  }

  lemma SendKeeps(n: NodeState, ctx: Ctx, b: Body)
    requires Linked(n) && Kept(n)
    ensures var o := Send(n, ctx, b); Linked(o.node) && Kept(o.node) && CoreOf(o.node) == CoreOf(n)
  {
    var n' := Send(n, ctx, b).node;
    assert CoreOf(n') == CoreOf(n);
    SameLinks(n, n');
    hide Linked, Sound, CountOf, P.Funded;
    SameMoneyKept(n, n');
  }

  lemma SameLinks(n: NodeState, n': NodeState)
    requires Linked(n) && n'.contact == n.contact && n'.transfers == n.transfers
    ensures Linked(n')
  {
  }

  // ----- releasing -----

  lemma LegsUpdate(ts: map<Id, Transfer>, id: Id, t: Transfer)
    ensures LegsOf(ts[id := t]) == LegsOf(ts)[id := LegOf(t)]
  {
  }

  lemma KillIs(n: NodeState, id: Id, s: State)
    requires id in n.transfers && n.contact.Some? && n.contact.value.busyTransfer == Some(id)
    ensures CoreOf(ReleaseFor(SetState(n, id, s), id)) == M.Kill(CoreOf(n), id, s)
  {
    LegsUpdate(n.transfers, id, n.transfers[id].(state := s));
  }

  lemma KillLinks(n: NodeState, id: Id, s: State)
    requires Linked(n) && id in n.transfers
    ensures Linked(ReleaseFor(SetState(n, id, s), id))
  {
  }

  /** A live leg is the one the lock names. */
  lemma LiveHolds(n: NodeState, y: P.Core, sx: Sent, sy: Sent, id: Id)
    requires Good(n, y, sx, sy) && id in n.transfers && P.Live(LegOf(n.transfers[id]))
    ensures n.contact.Some? && n.contact.value.busyTransfer == Some(id) && CoreOf(n).pending.None?
    ensures CoreOf(n).lock == Some(id) && OwnsContact(n, n.transfers[id].contactId)
    ensures n.contact.value.busy && n.contact.value.active && n.contact.value.history != []
  {
    hide Kept, Logged;
    var x := CoreOf(n);
    assert P.Locked(x) && P.Opened(x);
    assert id in x.legs && x.legs[id] == LegOf(n.transfers[id]);
  }

  lemma KillGood(n: NodeState, y: P.Core, sx: Sent, sy: Sent, id: Id, s: State)
    requires Good(n, y, sx, sy) && id in n.transfers
    requires n.transfers[id].state.Proposed? || n.transfers[id].state.Accepted?
    requires P.Live(LegOf(n.transfers[id]))
    requires s.Expired? || s.Aborted? || (s.Rejected? && n.transfers[id].outgoing)
    requires s.Rejected? ==>
               && id !in y.legs
               && forall j :: y.lastSeq <= j < |sx| ==> !(sx[j].body.TransferPropose? && sx[j].body.transferId == id)
    requires s.Aborted? && !n.transfers[id].outgoing ==> id in y.legs && Dead(y.legs[id].state)
    ensures Good(ReleaseFor(SetState(n, id, s), id), y, sx, sy)
    ensures CoreOf(ReleaseFor(SetState(n, id, s), id)) == M.Kill(CoreOf(n), id, s)
  {
    hide P.Inv, Linked, Kept, Logged;
    LiveHolds(n, y, sx, sy, id);
    KillIs(n, id, s);
    KillLinks(n, id, s);
    M.KillKeeps(CoreOf(n), y, sx, sy, id, s);
    KillKept(n, id, s);
    SameLogged(n, ReleaseFor(SetState(n, id, s), id), sx) by { KillReceipts(n, id, s); }
  }

  lemma KillReceipts(n: NodeState, id: Id, s: State)
    requires id in n.transfers
    ensures var n' := ReleaseFor(SetState(n, id, s), id);
            && n'.outSeq == n.outSeq && n'.replies == n.replies && n'.lastSeq == n.lastSeq
            && n'.transfers == n.transfers[id := n.transfers[id].(state := s)]
  {
  }

  lemma KillKept(n: NodeState, id: Id, s: State)
    requires Kept(n) && id in n.transfers && (n.transfers[id].state.Proposed? || n.transfers[id].state.Accepted?)
    requires Dead(s)
    ensures Kept(ReleaseFor(SetState(n, id, s), id))
  {
    hide Kept;
    var n' := ReleaseFor(SetState(n, id, s), id);
    LegsUpdate(n.transfers, id, n.transfers[id].(state := s));
    StateKept(n, n', id, s);
  }

  /** A leg that is proposed or accepted is live. */
  lemma EarlyIsLive(n: NodeState, y: P.Core, sx: Sent, sy: Sent, id: Id)
    requires Good(n, y, sx, sy) && id in n.transfers
    requires n.transfers[id].state.Proposed? || n.transfers[id].state.Accepted?
    ensures P.Live(LegOf(n.transfers[id]))
    ensures n.transfers[id].state.Proposed? <==> n.transfers[id].outgoing
  {
    hide Kept, Logged;
    var x := CoreOf(n);
    assert P.LegStates(x);
    assert id in x.legs && x.legs[id] == LegOf(n.transfers[id]);
  }

  lemma ExpireGood(n: NodeState, y: P.Core, sx: Sent, sy: Sent, id: Id, now: int)
    requires Good(n, y, sx, sy)
    ensures Good(ExpireIfDue(n, id, now), y, sx, sy)
    ensures Due(n, id, now) ==>
              ExpireIfDue(n, id, now) == ReleaseFor(SetState(n, id, Expired), id)
              && CoreOf(ExpireIfDue(n, id, now)) == M.Kill(CoreOf(n), id, Expired)
  {
    hide Good;
    if Due(n, id, now) {
      EarlyIsLive(n, y, sx, sy, id);
      LiveHolds(n, y, sx, sy, id);
      KillGood(n, y, sx, sy, id, Expired);
    }
  }

  lemma ReleaseGood(n: NodeState, y: P.Core, sx: Sent, sy: Sent, now: int)
    requires Good(n, y, sx, sy)
    ensures Good(ReleaseIfBusyExpired(n, now), y, sx, sy)
  {
    if n.contact.Some? && n.contact.value.busy && n.contact.value.busyTransfer.Some? {
      ExpireGood(n, y, sx, sy, n.contact.value.busyTransfer.value, now);
    }
  }
}
