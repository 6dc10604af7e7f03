/** The terms of a payment: what the payee records and pays is what the payer's member asked for,
    name by name and number by number, and how rejections and aborts end a payment. */
module SystemTerms {
  import opened Wrappers
  import opened PoolPricing
  import opened ChannelHistory
  import opened Ledgers
  import opened TransferStates
  import opened Messages
  import opened NodeSpec
  import opened NodeInvariant
  import opened NodeSteps
  import opened NodeGrowth
  import opened NodeTriggers
  import opened NodeMoney
  import opened NodeGate
  import opened NodeAnswers
  import opened Systems
  import opened SystemInvariant
  import opened SystemRuns
  import opened SystemSafety
  import opened SystemPromises
  import opened SystemOutcomes
  import opened SystemTurns
  import opened SystemRetries
  import opened SystemFutures
  import P = ProtocolInvariant

  // ----- one action -----

  /** The record says what the proposal says. */
  predicate Records(t: Transfer, id: Id, b: Body) {
    && b.TransferPropose? && b.transferId == id && b.contactId == t.contactId && b.opSeq == t.opSeq
    && b.fromMember == t.fromMember && b.toMember == t.toMember && b.src == t.src && b.dst == t.dst
    && b.expires == t.expires
  }

  /** The same, up to the contact's id, which the payee takes from its own contact. */
  predicate SameTerms(t: Transfer, t': Transfer) {
    && t'.opSeq == t.opSeq && t'.fromMember == t.fromMember && t'.toMember == t.toMember
    && t'.src == t.src && t'.dst == t.dst && t'.expires == t.expires
  }

  /** A newly sent proposal. */
  predicate Proposes(n: NodeState, r: Acted) {
    r.out.Some? && r.node.outSeq != n.outSeq && r.out.value.body.TransferPropose?
  }

  lemma AnswersNeverPropose(n: NodeState, env: Envelope, ctx: Ctx, autoSeed: int)
    ensures var r := ProcessInbound(n, env, ctx, autoSeed); !Proposes(n, Acted(r.node, r.out, true))
  {
    hide Route, Processed;
    RouteMoves(n, env.body, ctx, autoSeed);
    ProcessedOutSeq(n, env, ctx, autoSeed);
  }

  lemma OnlyStartProposes(n: NodeState, peer: Side, act: Action)
    requires Proposes(n, Act(n, peer, act))
    ensures act.Start?
  {
    hide ReleaseIfBusyExpired, Sweep, Appended, Reconcile, SetState, ReleaseFor, StartTransfer, ProcessInbound;
    if act.Receive? && act.i < |peer.sent| {
      AnswersNeverPropose(n, peer.sent[act.i], act.ctx, act.autoSeed);
    }
  }

  /** A payment that starts is recorded under the terms it proposes. */
  lemma StartRecords(n: NodeState, peer: Side, act: Action)
    requires act.Start? && Proposes(n, Act(n, peer, act))
    ensures var r, b := Act(n, peer, act), Act(n, peer, act).out.value.body;
            && r.stored && b.transferId in r.node.transfers && r.node.transfers[b.transferId].outgoing
            && Records(r.node.transfers[b.transferId], b.transferId, b)
  {
    hide StartTransfer, PoolPrice, MayStart, FreeAt, Names;
    NamesOne(act.from);
    StartsExactly(n, act.ctx, act.from, act.to, act.src, act.id, LocalPart(act.from));
  }

  /** A transfer to this node that is new was taken up from a proposal on the terms it names. */
  lemma TakenRecords(n: NodeState, peer: Side, act: Action, t: Id)
    requires var n' := Act(n, peer, act).node; t !in n.transfers && t in n'.transfers && !n'.transfers[t].outgoing
    ensures act.Receive? && act.i < |peer.sent|
    ensures var b, t' := peer.sent[act.i].body, Act(n, peer, act).node.transfers[t];
            b.TransferPropose? && Records(t'.(contactId := b.contactId), t, b)
  {
    hide OpenContact, StartTransfer, AbortTransfer, AdjustReserve, CloseContact, Sweep, Appended, Reconcile, Route,
      ReleaseIfBusyExpired, PoolPrice, Names, MayStart;
    match act
    case Open(ctx, seed, id) => OperationsGate(n, ctx, seed, id); KeysStay(n, Act(n, peer, act).node, t);
    case Start(ctx, from, to, src, id) =>
      NamesOne(from);
      StartsExactly(n, ctx, from, to, src, id, LocalPart(from));
      StartTakes(n, ctx, from, to, src, id, t);
    case Abort(ctx, id) => OperationsGate(n, ctx, 0, id); KeysStay(n, Act(n, peer, act).node, t);
    case Adjust(ctx, delta, id) => TradesGate(n, ctx, "", "", delta, id); KeysStay(n, Act(n, peer, act).node, t);
    case Close(ctx) => OperationsGate(n, ctx, 0, Uuid("")); KeysStay(n, Act(n, peer, act).node, t);
    case SweepAll(ids, now) => SweepGate(n, ids, now); KeysStay(n, Act(n, peer, act).node, t);
    case Receive(i, ctx, autoSeed) =>
      if i < |peer.sent| {
        InboundTakes(n, peer.sent[i], ctx, autoSeed, t);
      }
    case Check(j) => CheckStays(n, peer, act);
    case _ =>
  }

  lemma KeysStay(n: NodeState, n': NodeState, t: Id)
    requires SameKeys(n, n')
    ensures t in n.transfers <==> t in n'.transfers
  {
    assert t in n.transfers.Keys <==> t in n'.transfers.Keys;
  }

  lemma CheckStays(n: NodeState, peer: Side, act: Action)
    requires act.Check?
    ensures Act(n, peer, act).node.transfers == n.transfers
  {
    hide Freezes;
  }

  lemma StartTakes(n: NodeState, ctx: Ctx, from: string, to: string, src: int, id: Id, t: Id)
    requires var d := StartTransfer(n, ctx, from, to, src, id); t !in n.transfers && t in d.node.transfers
    ensures StartTransfer(n, ctx, from, to, src, id).node.transfers[t].outgoing
  {
    hide ReleaseIfBusyExpired, PoolPrice, LocalPart;
    ReleaseGate(n, id, ctx.now);
    KeysStay(n, ReleaseIfBusyExpired(n, ctx.now), t);
  }

  lemma InboundTakes(n: NodeState, env: Envelope, ctx: Ctx, autoSeed: int, t: Id)
    requires var n' := ProcessInbound(n, env, ctx, autoSeed).node; t !in n.transfers && t in n'.transfers
    ensures var t' := ProcessInbound(n, env, ctx, autoSeed).node.transfers[t];
            env.body.TransferPropose? && Records(t'.(contactId := env.body.contactId), t, env.body)
  {
    hide Route, ReleaseIfBusyExpired, PoolPrice, Names, Reason;
    RouteGate(n, env.body, ctx, autoSeed);
    var o := Route(n, env.body, ctx, autoSeed);
    if env.body.TransferPropose? {
      NamesOne(env.body.toMember);
      ProposalExactly(n, env.body, ctx, LocalPart(env.body.toMember));
      ProposeRoutes(n, env.body, ctx, autoSeed);
      ProposeTakes(n, env.body, ctx, t);
      if Reason(n, env.body, LocalPart(env.body.toMember), ctx.now).Some? {
        KeysStay(n, o.node, t);
      }
    } else {
      KeysStay(n, o.node, t);
    }
  }

  lemma ProposeRoutes(n: NodeState, b: Body, ctx: Ctx, autoSeed: int)
    requires b.TransferPropose?
    ensures Route(n, b, ctx, autoSeed) == HandleTransferPropose(n, b, ctx)
  {
    hide HandleTransferPropose;
  }

  lemma ProposeTakes(n: NodeState, b: Body, ctx: Ctx, t: Id)
    requires b.TransferPropose? && t !in n.transfers && t in HandleTransferPropose(n, b, ctx).node.transfers
    ensures t == b.transferId
  {
    hide ReleaseIfBusyExpired, PoolPrice, LocalPart;
    ReleaseGate(n, t, ctx.now);
    KeysStay(n, ReleaseIfBusyExpired(n, ctx.now), t);
  }

  // ----- runs -----

  lemma NothingSent(r: seq<System>, turns: seq<Turn>, first: bool)
    requires Follows(r, turns)
    ensures Mine(r[0], first).sent == []
  {
  }

  lemma RecordsOn(n: NodeState, n': NodeState, t: Id, b: Body)
    requires TransfersGrow(n, n') && t in n.transfers && Records(n.transfers[t], t, b)
    ensures t in n'.transfers && Records(n'.transfers[t], t, b) && n'.transfers[t].outgoing == n.transfers[t].outgoing
  {
  }

  /** In every state of every run a proposal that was sent stands in its node's own records. */
  lemma {:induction false} ProposalIsRecorded(r: seq<System>, turns: seq<Turn>, k: nat, first: bool,
                                              n: NodeState, i: nat)
    requires Follows(r, turns) && k < |r| && Holds(Mine(r[k], first), n)
    requires i < |Mine(r[k], first).sent| && Mine(r[k], first).sent[i].body.TransferPropose?
    ensures var b := Mine(r[k], first).sent[i].body;
            b.transferId in n.transfers && n.transfers[b.transferId].outgoing
            && Records(n.transfers[b.transferId], b.transferId, b)
    decreases k
  {
    hide Follows, Act, ActsLike, TransfersGrow, ContactGrows, Enabled, Records, Step, Kin, Onto;
    if k == 0 {
      NothingSent(r, turns, first);
    } else {
      Lengths(r, turns);
      TurnTaken(r, turns, k - 1, first);
      var m := TurnMoves(r, turns, k - 1, first, n);
      var me, peer, act := Mine(r[k - 1], first), Theirs(r[k - 1], first), turns[k - 1].act;
      var b := Mine(r[k], first).sent[i].body;
      if i < |me.sent| && Mine(r[k], first).sent[i] == me.sent[i] {
        ProposalIsRecorded(r, turns, k - 1, first, m, i);
        RecordsOn(m, n, b.transferId, b);
      } else {
        SentOf(me, peer, act, i);
        StepSends(me, peer, act, i, n);
      }
    }
  }

  lemma StepSends(me: Side, peer: Side, act: Action, i: nat, n: NodeState)
    requires var me' := Step(me, peer, act);
             i < |me'.sent| && Holds(me', n) && !(i < |me.sent| && me'.sent[i] == me.sent[i])
             && me'.sent[i].body.TransferPropose?
    ensures var b := Step(me, peer, act).sent[i].body;
            b.transferId in n.transfers && n.transfers[b.transferId].outgoing
            && Records(n.transfers[b.transferId], b.transferId, b)
  {
    hide Act, Records;
    SentOf(me, peer, act, i);
    OnlyStartProposes(me.mem, peer, act);
    StartRecords(me.mem, peer, act);
  }

  /** In every state of every run a transfer to this node was proposed to it on these terms. */
  lemma {:induction false} TakenWasProposed(r: seq<System>, turns: seq<Turn>, k: nat, first: bool, n: NodeState, t: Id)
    returns (i: nat)
    requires Follows(r, turns) && k < |r| && Holds(Mine(r[k], first), n) && t in n.transfers && !n.transfers[t].outgoing
    ensures i < |Theirs(r[k], first).sent| && Theirs(r[k], first).sent[i].body.TransferPropose?
    ensures var b := Theirs(r[k], first).sent[i].body; Records(n.transfers[t].(contactId := b.contactId), t, b)
    decreases k
  {
    hide Follows, Act, ActsLike, ContactGrows, Enabled, Records, Onto;
    if k == 0 {
      i := 0;
      NothingAtFirst(r, turns, first, n);
    } else {
      Lengths(r, turns);
      var m := TurnMoves(r, turns, k - 1, first, n);
      PeerSentGrows(r, turns, k - 1, !first);
      if t in m.transfers {
        i := TakenWasProposed(r, turns, k - 1, first, m, t);
        var b := Theirs(r[k - 1], first).sent[i].body;
        RecordsOn(m.(transfers := m.transfers[t := m.transfers[t].(contactId := b.contactId)]),
                  n.(transfers := n.transfers[t := n.transfers[t].(contactId := b.contactId)]), t, b);
      } else {
        TakenRecords(m, Theirs(r[k - 1], first), turns[k - 1].act, t);
        i := turns[k - 1].act.i;
      }
    }
  }

  /** Payer and payee hold the same terms: in any two states the sides may be in, what a node is to
      be paid is an outgoing transfer of its peer with the same payer, payee, amounts, operation
      number and expiry. */
  lemma TermsAgree(r: seq<System>, k: nat, first: bool, n: NodeState, m: NodeState, t: Id)
    requires IsRun(r) && k < |r| && Holds(Mine(r[k], first), n) && Holds(Theirs(r[k], first), m)
    requires t in n.transfers && !n.transfers[t].outgoing
    ensures t in m.transfers && m.transfers[t].outgoing && SameTerms(m.transfers[t], n.transfers[t])
  {
    hide IsRun, Follows;
    var turns := RunFollows(r);
    var i := TakenWasProposed(r, turns, k, first, n, t);
    ProposalIsRecorded(r, turns, k, !first, m, i);
  }

  /** The commit that settles pays the member the payer's side named, the amount the payer's side
      priced: that member's balance grows by exactly dst and the payer's wallet here falls by it. */
  lemma NamedPayeeIsPaid(r: seq<System>, k: nat, first: bool, n: NodeState, m: NodeState, i: nat, ctx: Ctx,
                         autoSeed: int,
                         name: string)
    requires IsRun(r) && k < |r| && Holds(Mine(r[k], first), n) && Holds(Theirs(r[k], first), m)
    requires var sy := Theirs(r[k], first).sent;
             && i < |sy| && sy[i].body.TransferCommit? && Validate(sy[i], n.seen, n.lastSeq, ctx.now).Ok?
             && StateOf(n, sy[i].body.transferId) == Some(Accepted)
    ensures var sy := Theirs(r[k], first).sent;
            var t := sy[i].body.transferId;
            && t in m.transfers
            && (Names(m.transfers[t].toMember, name) ==>
                 Transfers(n.book, ProcessInbound(n, sy[i], ctx, autoSeed).node.book,
                           NodeWallet(n.peerHost), Member(name), m.transfers[t].dst))
  {
    hide IsRun, Follows, Met, Transfers, Names, ProcessInbound, Validate;
    var turns := RunFollows(r);
    var me, peer := Mine(r[k], first), Theirs(r[k], first);
    MetAt(r, turns, k, first, n, m);
    CommitFinds(me, n, peer, m, i);
    var t := peer.sent[i].body.transferId;
    TermsAgree(r, k, first, n, m, t);
    if Names(m.transfers[t].toMember, name) {
      PayoutArrives(me, n, peer, m, i, ctx, autoSeed, name);
    }
  }

  // ----- rejections and aborts -----

  lemma EndsHere(me: Side, n: NodeState, peer: Side, m: NodeState, t: Id)
    requires Met(me, n, peer, m) && t in n.transfers
    ensures OwnsContact(n, n.transfers[t].contactId)
    ensures if n.transfers[t].outgoing then !n.transfers[t].state.Accepted? else !n.transfers[t].state.Proposed?
    ensures (if n.transfers[t].outgoing then n.transfers[t].state.Proposed? else n.transfers[t].state.Accepted?) ==>
              n.contact.value.busyTransfer == Some(t)
  {
    hide Met, Good;
    MetGood(me, n, peer, m);
    GoodLinked(n, CoreOf(m), me.sent, peer.sent);
    SideStates(n, CoreOf(m), me.sent, peer.sent, t);
    if n.contact.Some? {
      LockIsLive(me, n, peer, m);
      assert LiveOperation(n, t) <==> n.contact.value.busyTransfer == Some(t);
    }
  }

  lemma ProcessedEnds(n: NodeState, n': NodeState, id: Id, s: State, env: Envelope)
    ensures Ended(n, id, s, n') && n.contact.Some? && n.contact.value.busyTransfer == Some(id)
            && n.contact.value.id == n.transfers[id].contactId ==>
              Frees(n, Processed(n', env, None), id, s)
  {
  }

  /** The transfer ended, the contact is idle, and no other transfer and no balance changed. */
  predicate Frees(n: NodeState, n': NodeState, t: Id, s: State) {
    && t in n.transfers && n'.transfers == n.transfers[t := n.transfers[t].(state := s)] && n'.book == n.book
    && n.contact.Some? && n'.contact == Some(n.contact.value.(busy := false, busyTransfer := None))
  }

  predicate Untouched(n: NodeState, n': NodeState) {
    n'.transfers == n.transfers && n'.contact == n.contact && n'.book == n.book
  }

  /** In every reachable state a rejection past the gate ends the outgoing proposal it names and
      frees the contact; it changes nothing if that no longer stands. */
  lemma RejectionFrees(me: Side, n: NodeState, peer: Side, m: NodeState, i: nat, ctx: Ctx, autoSeed: int)
    requires Met(me, n, peer, m) && i < |peer.sent| && peer.sent[i].body.TransferReject?
    requires Validate(peer.sent[i], n.seen, n.lastSeq, ctx.now).Ok?
    ensures var t := peer.sent[i].body.transferId;
            var r := ProcessInbound(n, peer.sent[i], ctx, autoSeed);
            && r.out.None?
            && if t in n.transfers && n.transfers[t].outgoing && n.transfers[t].state.Proposed?
               then Frees(n, r.node, t, Rejected) else Untouched(n, r.node)
  {
    hide Met, HandleTransferReject, Processed, Ended, Validate;
    var b := peer.sent[i].body;
    RejectsExactly(n, b);
    ProcessedEnds(n, HandleTransferReject(n, b).node, b.transferId, Rejected, peer.sent[i]);
    ProcessedSame(n, peer.sent[i]);
    if b.transferId in n.transfers {
      EndsHere(me, n, peer, m, b.transferId);
    }
  }

  lemma ProcessedSame(n: NodeState, env: Envelope)
    ensures Untouched(n, Processed(n, env, None))
  {
  }

  /** An abort past the gate ends the acceptance it names and frees the payee's contact; it changes
      nothing if that no longer stands. */
  lemma AbortionFrees(me: Side, n: NodeState, peer: Side, m: NodeState, i: nat, ctx: Ctx, autoSeed: int)
    requires Met(me, n, peer, m) && i < |peer.sent| && peer.sent[i].body.TransferAbort?
    requires Validate(peer.sent[i], n.seen, n.lastSeq, ctx.now).Ok?
    ensures var t := peer.sent[i].body.transferId;
            var r := ProcessInbound(n, peer.sent[i], ctx, autoSeed);
            && r.out.None?
            && if t in n.transfers && !n.transfers[t].outgoing && n.transfers[t].state.Accepted?
               then Frees(n, r.node, t, Aborted) else Untouched(n, r.node)
  {
    hide Met, HandleTransferAbort, Processed, Ended, Validate;
    var b := peer.sent[i].body;
    AbortedExactly(n, b);
    ProcessedEnds(n, HandleTransferAbort(n, b).node, b.transferId, Aborted, peer.sent[i]);
    ProcessedSame(n, peer.sent[i]);
    if b.transferId in n.transfers {
      EndsHere(me, n, peer, m, b.transferId);
    }
  }
}
