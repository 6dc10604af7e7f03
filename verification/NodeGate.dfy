/** The receiver's gate: which envelopes pass, what passing leaves behind, that no handler and no
    operation touches the receive position, the ids seen or the answers kept, and that only a
    proposal takes a transfer up. */
module NodeGate {
  import opened Wrappers
  import opened PoolPricing
  import opened ChannelHistory
  import opened Ledgers
  import opened TransferStates
  import opened Messages
  import opened NodeSpec

  predicate SameGate(n: NodeState, n': NodeState) {
    n'.seen == n.seen && n'.lastSeq == n.lastSeq && n'.replies == n.replies
  }

  /** No transfer is taken up. */
  predicate SameKeys(n: NodeState, n': NodeState) { n'.transfers.Keys == n.transfers.Keys }

  predicate SameBoth(n: NodeState, n': NodeState) { SameGate(n, n') && SameKeys(n, n') }

  lemma ReleaseGate(n: NodeState, id: Id, now: int)
    ensures SameBoth(n, ExpireIfDue(n, id, now)) && SameBoth(n, ReleaseIfBusyExpired(n, now))
  {
  }

  lemma {:induction false} SweepGate(n: NodeState, ids: seq<Id>, now: int)
    ensures SameBoth(n, Sweep(n, ids, now))
  {
    hide ExpireIfDue;
    if ids != [] {
      SweepGate(n, ids[..|ids| - 1], now);
      ReleaseGate(Sweep(n, ids[..|ids| - 1], now), ids[|ids| - 1], now);
    }
  }

  lemma OperationsGate(n: NodeState, ctx: Ctx, seed: int, id: Id)
    ensures SameBoth(n, OpenContact(n, ctx, seed, id).node)
    ensures SameBoth(n, CloseContact(n, ctx).node)
    ensures SameBoth(n, AbortTransfer(n, ctx, id).node)
  {
  }

  lemma TradesGate(n: NodeState, ctx: Ctx, from: string, to: string, x: int, id: Id)
    ensures SameGate(n, StartTransfer(n, ctx, from, to, x, id).node)
    ensures SameBoth(n, AdjustReserve(n, ctx, x, id).node)
  {
    hide ReleaseIfBusyExpired, PoolPrice, LocalPart;
    ReleaseGate(n, id, ctx.now);
  }

  lemma OpeningGate(n: NodeState, b: Body, ctx: Ctx, autoSeed: int)
    ensures b.ContactPropose? ==> SameBoth(n, HandleContactPropose(n, b, ctx, autoSeed).node)
    ensures b.ContactAccept? ==> SameBoth(n, HandleContactAccept(n, b, ctx).node)
    ensures b.ReserveAccept? ==> SameBoth(n, HandleReserveAccept(n, b, ctx).node)
  {
    hide Appended, ApplySeed, ApplyAdjust;
  }

  lemma AskedGate(n: NodeState, b: Body, ctx: Ctx)
    ensures b.TransferPropose? ==> SameGate(n, HandleTransferPropose(n, b, ctx).node)
    ensures b.ReserveAdjust? ==> SameBoth(n, HandleReserveAdjust(n, b, ctx).node)
  {
    hide ReleaseIfBusyExpired, PoolPrice, LocalPart, ApplyAdjust;
    ReleaseGate(n, Uuid(""), ctx.now);
  }

  lemma CommitsGate(n: NodeState, id: Id, ctx: Ctx)
    requires id in n.transfers && n.contact.Some?
    ensures n.transfers[id].state.Accepted? ==>
              SameBoth(n, CommitOutgoing(n, id, ctx).node)
    ensures n.transfers[id].state.Committed? ==>
              SameBoth(n, SettleIncoming(n, id, ctx).node)
  {
    hide Appended, ApplyTransfer;
  }

  lemma PaymentGate(n: NodeState, b: Body, ctx: Ctx)
    ensures b.TransferAccept? ==> SameBoth(n, HandleTransferAccept(n, b, ctx).node)
    ensures b.TransferCommit? ==> SameBoth(n, HandleTransferCommit(n, b, ctx).node)
  {
    hide CommitOutgoing, SettleIncoming, ExpireIfDue;
    if b.TransferAccept? || b.TransferCommit? {
      var id := b.transferId;
      ReleaseGate(n, id, ctx.now);
      if id in n.transfers && n.contact.Some? {
        CommitsGate(SetState(n, id, Accepted), id, ctx);
        CommitsGate(SetState(n, id, Committed), id, ctx);
      }
    }
  }

  lemma EndingGate(n: NodeState, b: Body, ctx: Ctx)
    ensures b.TransferReceipt? ==> SameBoth(n, HandleTransferReceipt(n, b, ctx).node)
    ensures b.TransferReject? ==> SameBoth(n, HandleTransferReject(n, b).node)
    ensures b.TransferAbort? ==> SameBoth(n, HandleTransferAbort(n, b).node)
  {
  }

  lemma RouteGate(n: NodeState, b: Body, ctx: Ctx, autoSeed: int)
    ensures SameGate(n, Route(n, b, ctx, autoSeed).node)
    ensures !b.TransferPropose? ==> SameKeys(n, Route(n, b, ctx, autoSeed).node)
  {
    hide HandleContactPropose, HandleContactAccept, HandleTransferPropose, HandleTransferAccept, HandleTransferReject,
      HandleTransferCommit, HandleTransferReceipt, HandleTransferAbort, HandleReserveAdjust, HandleReserveAccept;
    match b
    case ContactPropose(_, _) => OpeningGate(n, b, ctx, autoSeed);
    case ContactAccept(_, _) => OpeningGate(n, b, ctx, autoSeed);
    case ReserveAccept(_, _) => OpeningGate(n, b, ctx, autoSeed);
    case TransferPropose(_, _, _, _, _, _, _, _) => AskedGate(n, b, ctx);
    case ReserveAdjust(_, _, _, _) => AskedGate(n, b, ctx);
    case TransferAccept(_) => PaymentGate(n, b, ctx);
    case TransferCommit(_) => PaymentGate(n, b, ctx);
    case TransferReject(_, _) => EndingGate(n, b, ctx);
    case TransferReceipt(_) => EndingGate(n, b, ctx);
    case TransferAbort(_) => EndingGate(n, b, ctx);
    case _ =>
  }

  // ----- one envelope -----

  /** The answer a node keeps for an envelope it accepted. */
  function AnswerTo(n: NodeState, id: Id): Option<Envelope> { if id in n.replies then Some(n.replies[id]) else None }

  /** An envelope passes exactly if its id is new, its number is past the last one, and it is at
      most seven days old and at most an hour ahead of the clock. */
  lemma PassesExactly(n: NodeState, env: Envelope, now: int)
    ensures Validate(env, n.seen, n.lastSeq, now).Ok? <==>
              env.id !in n.seen && env.seqNo > n.lastSeq && -3600 <= now - env.created <= 604800
  {
  }

  /** The reason given is the first that applies, a known id before all others. */
  lemma RefusedFor(n: NodeState, env: Envelope, now: int)
    ensures var v := Validate(env, n.seen, n.lastSeq, now);
            && (v.Duplicate? <==> env.id in n.seen)
            && (v.StaleSeq? <==> env.id !in n.seen && env.seqNo <= n.lastSeq)
            && (v.TooOld? <==> env.id !in n.seen && env.seqNo > n.lastSeq && now - env.created > 604800)
            && (v.Future? <==> env.id !in n.seen && env.seqNo > n.lastSeq && env.created - now > 3600)
  {
  }

  /** Passing moves the position to the envelope, enters its id and keeps its answer beside the
      earlier ones; not passing changes nothing, and only a known id is answered, from what was kept. */
  lemma GateKeeps(n: NodeState, env: Envelope, ctx: Ctx, autoSeed: int)
    requires n.replies.Keys <= n.seen
    ensures var r := ProcessInbound(n, env, ctx, autoSeed);
            if Validate(env, n.seen, n.lastSeq, ctx.now).Ok?
            then r.node.lastSeq == env.seqNo && r.node.seen == n.seen + {env.id}
                 && AnswerTo(r.node, env.id) == r.out
                 && forall id :: id != env.id ==> AnswerTo(r.node, id) == AnswerTo(n, id)
            else r.node == n && r.out == (if env.id in n.seen then AnswerTo(n, env.id) else None)
  {
    hide Route;
    if Validate(env, n.seen, n.lastSeq, ctx.now).Ok? {
      RouteGate(n, env.body, ctx, autoSeed);
      assert env.id !in n.replies.Keys;
    }
  }

  // ----- a fetched list -----

  /** An honest fetched list: numbers ascend, ids differ, and what is above the position is unseen
      and recent enough for the clock that handles it. */
  ghost predicate HonestTail(n: NodeState, envs: seq<Envelope>, ctxs: seq<Ctx>)
    requires |ctxs| == |envs|
  {
    && (forall i, j :: 0 <= i < j < |envs| ==> envs[i].seqNo < envs[j].seqNo && envs[i].id != envs[j].id)
    && (forall i :: 0 <= i < |envs| && envs[i].seqNo > n.lastSeq ==>
          envs[i].id !in n.seen && -3600 <= ctxs[i].now - envs[i].created <= 604800)
  }

  function IdsOf(envs: seq<Envelope>): set<Id> { set i | 0 <= i < |envs| :: envs[i].id }

  lemma IdsNext(envs: seq<Envelope>, k: nat)
    requires k <= |envs|
    ensures IdsOf(envs[k..]) == IdsOf(envs[k..|envs|]) && IdsOf(envs[|envs|..]) == {}
    ensures k < |envs| ==> IdsOf(envs[k..]) == IdsOf(envs[..|envs| - 1][k..]) + {envs[|envs| - 1].id}
  {
    if k < |envs| {
      assert envs[k..] == envs[..|envs| - 1][k..] + [envs[|envs| - 1]];
    }
  }

  /** Polling an honest list whose first cut envelopes are known takes in every later one: they are
      what is counted and what becomes seen, and the position ends at the end of the list. */
  lemma {:induction false} PolledTail(n: NodeState, envs: seq<Envelope>, ctxs: seq<Ctx>, autoSeed: int, cut: nat)
    requires |ctxs| == |envs| && HonestTail(n, envs, ctxs) && cut <= |envs|
    requires forall i :: 0 <= i < |envs| ==> (envs[i].seqNo > n.lastSeq <==> i >= cut)
    ensures var (m, count) := Polled(n, envs, ctxs, autoSeed);
            && count == |envs| - cut && m.seen == n.seen + IdsOf(envs[cut..])
            && m.lastSeq == (if cut < |envs| then envs[|envs| - 1].seqNo else n.lastSeq)
  {
    hide ProcessInbound, IdsOf;
    if envs != [] {
      var k := |envs| - 1;
      var m := Polled(n, envs[..k], ctxs[..k], autoSeed).0;
      IdsNext(envs, cut);
      PolledTail(n, envs[..k], ctxs[..k], autoSeed, if cut == |envs| then k else cut);
      OneMore(m, envs[k], ctxs[k], autoSeed);
      if cut < |envs| {
        NotAmong(envs, cut, k);
      } else {
        IdsNext(envs[..k], k);
      }
    } else {
      IdsNext(envs, 0);
    }
  }

  lemma NotAmong(envs: seq<Envelope>, cut: nat, k: nat)
    requires cut <= k == |envs| - 1
    requires forall i :: 0 <= i < k ==> envs[i].id != envs[k].id
    ensures envs[k].id !in IdsOf(envs[..k][cut..])
  {
  }

  lemma OneMore(m: NodeState, env: Envelope, ctx: Ctx, autoSeed: int)
    ensures var r := ProcessInbound(m, env, ctx, autoSeed);
            && (r.verdict.Ok? <==>
                  env.id !in m.seen && env.seqNo > m.lastSeq && -3600 <= ctx.now - env.created <= 604800)
            && (r.verdict.Ok? ==> r.node.lastSeq == env.seqNo && r.node.seen == m.seen + {env.id})
            && (!r.verdict.Ok? ==> r.node == m)
  {
    hide Route;
    if Validate(env, m.seen, m.lastSeq, ctx.now).Ok? {
      RouteGate(m, env.body, ctx, autoSeed);
    }
  }
}
