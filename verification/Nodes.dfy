/** A running node and its operations, as they update contact, transfers and ledger in place.
    Every method does exactly what NodeSpec says of the node's value. */
module Nodes {
  import opened Wrappers
  import opened PoolPricing
  import opened ChannelHistory
  import opened Ledgers
  import opened TransferStates
  import opened Messages
  import opened NodeLedger
  import opened Supply
  import opened Contacts
  import opened NodeSpec
  import Delivery
  import opened NodeInvariant

  class Node {
    const peerHost: string
    const led: Ledger
    var contact: Contacts.Contact?
    var transfers: map<Id, TransferRecord>
    var members: set<string>
    var outSeq: nat
    var lastSeq: nat
    var seen: set<Id>
    var replies: map<Id, Envelope>
    var outbox: seq<Envelope>
    /** The highest sequence number pushed successfully; forgotten on restart. */
    var pushed: int

    ghost function Parts(): set<object>
      reads `contact, `transfers
    {
      {this, led} + (if contact == null then {} else {contact}) + transfers.Values
    }

    /** No two transfers share a record. */
    ghost predicate Valid()
      reads `transfers
    {
      forall t, u :: t in transfers && u in transfers && t != u ==> transfers[t] != transfers[u]
    }

    ghost function ContactView(): Option<NodeSpec.Contact>
      reads `contact, contact
    {
      if contact == null then None else Some(contact.View())
    }

    ghost function TransfersView(): map<Id, Transfer>
      reads `transfers, transfers.Values
    {
      map t | t in transfers :: transfers[t].View()
    }

    ghost function View(): NodeState
      reads this, Parts()
    {
      NodeState(peerHost, ContactView(), TransfersView(), led.View(), members, outSeq, lastSeq, seen, replies)
    }

    constructor (peerHost: string)
      ensures Valid() && fresh(Parts())
      ensures View() == NodeState(peerHost, None, map[], EMPTY_BOOK, {}, 0, 0, {}, map[]) && outbox == []
    {
      this.peerHost := peerHost;
      led := new Ledger();
      contact, transfers, members := null, map[], {};
      outSeq, lastSeq, seen, replies, outbox, pushed := 0, 0, {}, map[], [], 0;
    }

    /** The outbox grew by the reply, if a new envelope was written at all. */
    ghost predicate Sends(before: seq<Envelope>, seqBefore: nat, reply: Option<Envelope>)
      reads this
    {
      if outSeq == seqBefore then outbox == before else reply.Some? && outbox == before + [reply.value]
    }

    // ----- building blocks -----

    /** Allocate the next sequence number and append the envelope to the outbox. */
    method BuildSigned(ctx: Ctx, body: Body) returns (env: Envelope)
      requires Valid()
      modifies this`outSeq, this`outbox
      ensures Valid() && Outcome(View(), Some(env)) == Send(old(View()), ctx, body)
      ensures outbox == old(outbox) + [env]
    {
      outSeq := outSeq + 1;
      env := Envelope(ctx.envelopeId, outSeq, ctx.now, body);
      outbox := outbox + [env];
    }

    method Reply(ctx: Ctx, body: Body) returns (reply: Option<Envelope>)
      requires Valid()
      modifies this`outSeq, this`outbox
      ensures Valid() && Outcome(View(), reply) == Send(old(View()), ctx, body)
      ensures reply.Some? && outSeq == old(outSeq) + 1 && outbox == old(outbox) + [reply.value]
    {
      var env := BuildSigned(ctx, body);
      reply := Some(env);
    }

    method Advance(id: Id, s: State)
      requires Valid() && id in transfers
      modifies transfers[id]
      ensures View() == SetState(old(View()), id, s) && transfers[id].state == s
    {
      hide TransfersView, Valid;
      Mark(id, s, transfers[id].receipt);
    }

    /** Change what may change of one transfer record. */
    method Mark(id: Id, s: State, receipt: Option<Envelope>)
      requires Valid() && id in transfers
      modifies transfers[id]
      ensures id in old(TransfersView()) && old(TransfersView())[id].receipt == old(transfers[id].receipt)
      ensures old(TransfersView())[id].state == old(transfers[id].state)
      ensures TransfersView() == old(TransfersView())[id := old(TransfersView())[id].(state := s, receipt := receipt)]
      ensures transfers[id].state == s && transfers[id].receipt == receipt
    {
      ghost var before := TransfersView();
      transfers[id].state, transfers[id].receipt := s, receipt;
      assert TransfersView() == before[id := before[id].(state := s, receipt := receipt)];
    }

    method Release(id: Id)
      requires Valid()
      modifies if contact == null then {} else {contact}
      ensures View() == ReleaseFor(old(View()), id)
    {
      if contact != null && contact.busyTransfer == Some(id) {
        contact.Unlock();
      }
      assert TransfersView() == old(TransfersView());
    }

    /** Add a record under a transfer identifier and lock the contact for it. */
    method TakeUp(id: Id, t: TransferRecord)
      requires Valid() && contact != null && t !in transfers.Values
      modifies this`transfers, contact
      ensures Valid() && transfers == old(transfers)[id := t] && contact == old(contact)
      ensures View() == old(View()).(transfers := old(TransfersView())[id := t.View()],
                                     contact := Some(LockedBy(old(contact.View()), id)))
    {
      transfers := transfers[id := t];
      contact.Lock(id);
      assert TransfersView() == old(TransfersView())[id := t.View()];
    }

    // ----- expiry -----

    method ExpireIfDue(id: Id, now: int) returns (expired: bool)
      requires Valid()
      modifies Parts()
      ensures Valid() && Parts() == old(Parts()) && contact == old(contact) && transfers == old(transfers)
      ensures outbox == old(outbox) && outSeq == old(outSeq) && (!expired ==> View() == old(View()))
      ensures expired == Due(old(View()), id, now) && View() == NodeSpec.ExpireIfDue(old(View()), id, now)
    {
      if id !in transfers || !(transfers[id].state.Proposed? || transfers[id].state.Accepted?) {
        return false;
      }
      if now <= transfers[id].expires {
        return false;
      }
      var next := Transition(transfers[id].state, Expire);
      if next.None? {
        return false;
      }
      Advance(id, next.value);
      if contact != null && contact.id == transfers[id].contactId {
        Release(id);
      }
      expired := true;
    }

    method ReleaseIfBusyExpired(now: int)
      requires Valid()
      modifies Parts()
      ensures Valid() && Parts() == old(Parts()) && contact == old(contact) && transfers == old(transfers)
      ensures outbox == old(outbox) && outSeq == old(outSeq)
      ensures View() == NodeSpec.ReleaseIfBusyExpired(old(View()), now)
    {
      if contact != null && contact.busy && contact.busyTransfer.Some? {
        var expired := ExpireIfDue(contact.busyTransfer.value, now);
      }
    }

    /** Expire every due transfer, in whatever order the map is walked, and count them. */
    method SweepExpired(order: seq<Id>, now: int) returns (count: nat)
      requires Valid()
      modifies Parts()
      ensures Valid() && Parts() == old(Parts()) && View() == Sweep(old(View()), order, now)
      ensures count == |Overdue(old(View()), order, now)|
    {
      hide TransfersView, Valid, NodeSpec.ExpireIfDue, Due;
      count := 0;
      for i := 0 to |order|
        invariant Valid() && Parts() == old(Parts()) && View() == Sweep(old(View()), order[..i], now)
        invariant count == |Overdue(old(View()), order[..i], now)|
      {
        assert order[..i + 1][..i] == order[..i];
        OverdueNext(old(View()), order, i, now);
        var expired := ExpireIfDue(order[i], now);
        if expired {
          count := count + 1;
        }
      }
      assert order[..|order|] == order;
    }

    // ----- opening and closing -----

    method OpenContact(ctx: Ctx, mySeed: int, id: Id) returns (out: Option<Envelope>, ok: bool)
      requires Valid()
      modifies Parts()
      ensures Valid() && fresh(Parts() - old(Parts())) && Sends(old(outbox), old(outSeq), out)
      ensures Done(View(), out, ok) == NodeSpec.OpenContact(old(View()), ctx, mySeed, id)
    {
      hide Valid, TransfersView, Send;
      if mySeed <= 0 || contact != null {
        return None, false;
      }
      contact := new Contacts.Contact(id, true, mySeed, 0);
      out := Reply(ctx, ContactPropose(id, mySeed));
      ok := true;
    }

    method SeedLedger(ctx: Ctx, amount: int) returns (ok: bool)
      requires Valid()
      modifies led
      ensures match Appended(old(led.View()),
                             TwoLegs(ctx, ContactSeed, None, NodeWallet(peerHost), amount, Issuance, -amount))
              case Success(book) => ok && led.View() == book
              case Failure(_) => !ok && led.View() == old(led.View())
      ensures contact != null ==> contact.View() == old(contact.View())
      ensures TransfersView() == old(TransfersView())
    {
      var r := led.Append(TwoLegs(ctx, ContactSeed, None, NodeWallet(peerHost), amount, Issuance, -amount));
      ok := r.Success?;
    }

    method HandleContactPropose(b: Body, ctx: Ctx, autoSeed: int) returns (reply: Option<Envelope>)
      requires Valid() && b.ContactPropose?
      modifies Parts()
      ensures Valid() && fresh(Parts() - old(Parts())) && Sends(old(outbox), old(outSeq), reply)
      ensures Outcome(View(), reply) == NodeSpec.HandleContactPropose(old(View()), b, ctx, autoSeed)
    {
      hide Valid, TransfersView, Appended, ApplySeed, Send;
      if autoSeed <= 0 {
        reply := Reply(ctx, ErrorReply(Refused));
        return;
      }
      if b.mySeed <= 0 {
        reply := Reply(ctx, ErrorReply(InvalidPayload));
        return;
      }
      if contact != null {
        reply := Reply(ctx, ErrorReply(DuplicateContact));
        return;
      }
      reply := TakeContact(b, ctx, autoSeed);
    }

    /** Book our seed and enter the contact, or refuse if the ledger does. */
    method TakeContact(b: Body, ctx: Ctx, autoSeed: int) returns (reply: Option<Envelope>)
      requires Valid() && b.ContactPropose? && autoSeed > 0 && b.mySeed > 0 && contact == null
      modifies Parts()
      ensures Valid() && fresh(Parts() - old(Parts())) && Sends(old(outbox), old(outSeq), reply)
      ensures Outcome(View(), reply) == NodeSpec.HandleContactPropose(old(View()), b, ctx, autoSeed)
    {
      hide Valid, TransfersView, Appended, ApplySeed, Send;
      var c := new Contacts.Contact(b.contactId, false, b.mySeed, autoSeed);
      var seeded := SeedLedger(ctx, autoSeed);
      if !seeded {
        reply := Reply(ctx, ErrorReply(Internal));
        return;
      }
      c.Activate(autoSeed, b.mySeed);
      contact := c;
      reply := Reply(ctx, ContactAccept(b.contactId, autoSeed));
    }

    method HandleContactAccept(b: Body, ctx: Ctx) returns (reply: Option<Envelope>)
      requires Valid() && b.ContactAccept?
      modifies Parts()
      ensures Valid() && fresh(Parts() - old(Parts())) && Sends(old(outbox), old(outSeq), reply)
      ensures Outcome(View(), reply) == NodeSpec.HandleContactAccept(old(View()), b, ctx)
    {
      hide Valid, TransfersView, Appended, ApplySeed, Send, TwoLegs;
      if contact == null || contact.id != b.contactId || !contact.iAmProposer {
        reply := Reply(ctx, ErrorReply(NoContact));
        return;
      }
      if contact.active {
        return None;
      }
      if b.mySeed <= 0 {
        reply := Reply(ctx, ErrorReply(InvalidPayload));
        return;
      }
      contact.responderSeed := b.mySeed;
      var seeded := SeedLedger(ctx, contact.proposerSeed);
      if !seeded {
        reply := Reply(ctx, ErrorReply(Internal));
        return;
      }
      contact.Activate(contact.proposerSeed, contact.responderSeed);
      reply := None;
    }

    method CloseContact(ctx: Ctx) returns (out: Option<Envelope>, ok: bool)
      requires Valid()
      modifies Parts()
      ensures Valid() && Parts() == old(Parts()) && Sends(old(outbox), old(outSeq), out)
      ensures Done(View(), out, ok) == NodeSpec.CloseContact(old(View()), ctx)
    {
      if contact == null {
        return None, false;
      }
      contact.closed := true;
      out := Reply(ctx, ContactClose(contact.id));
      ok := true;
    }

    method HandleContactClose() returns (reply: Option<Envelope>)
      requires Valid()
      modifies Parts()
      ensures Valid() && Parts() == old(Parts()) && Sends(old(outbox), old(outSeq), reply)
      ensures Outcome(View(), reply) == NodeSpec.HandleContactClose(old(View()))
    {
      if contact != null {
        contact.closed := true;
      }
      reply := None;
    }

    method HandleContactUpdate(ctx: Ctx) returns (reply: Option<Envelope>)
      requires Valid()
      modifies Parts()
      ensures Valid() && Parts() == old(Parts()) && Sends(old(outbox), old(outSeq), reply)
      ensures Outcome(View(), reply) == NodeSpec.HandleContactUpdate(old(View()), ctx)
    {
      if contact == null {
        reply := Reply(ctx, ErrorReply(NoContact));
      } else {
        reply := None;
      }
    }

    // ----- transfers -----

    method StartTransfer(ctx: Ctx, from: string, to: string, src: int, id: Id) returns (out: Option<Envelope>, ok: bool)
      requires Valid()
      modifies Parts()
      ensures Valid() && fresh(Parts() - old(Parts())) && Sends(old(outbox), old(outSeq), out)
      ensures Done(View(), out, ok) == NodeSpec.StartTransfer(old(View()), ctx, from, to, src, id)
    {
      hide Valid, TransfersView, Send, PoolPrice, NodeSpec.ReleaseIfBusyExpired, LockedBy, LocalPart, Get,
        NodeSpec.PriceOutgoing;
      if contact == null || !contact.active || contact.closed || contact.diverged {
        return None, false;
      }
      ReleaseIfBusyExpired(ctx.now);
      var quote := Quote(from, src);
      if quote.None? {
        return None, false;
      }
      var t := new TransferRecord(contact.id, true, Proposed, contact.opSeq, from, to, src, quote.value,
                                  ctx.now + HOUR);
      var proposal := TransferPropose(id, contact.id, contact.opSeq, from, to, src, quote.value, t.expires);
      out := TakeUpAndSay(id, t, ctx, proposal);
      ok := true;
    }

    /** Lock the contact for a new transfer and tell the peer. */
    method TakeUpAndSay(id: Id, t: TransferRecord, ctx: Ctx, body: Body) returns (out: Option<Envelope>)
      requires Valid() && contact != null && t !in transfers.Values
      modifies this, contact
      ensures Valid() && transfers == old(transfers)[id := t] && contact == old(contact)
      ensures Sends(old(outbox), old(outSeq), out)
      ensures var n := old(View());
              Outcome(View(), out) ==
              Send(n.(transfers := n.transfers[id := t.View()], contact := Some(LockedBy(n.contact.value, id))),
                   ctx, body)
    {
      hide Send, LockedBy, TransfersView, Valid;
      TakeUp(id, t);
      out := Reply(ctx, body);
    }

    /** What a payment would pay at the peer, if an open contact can take it up. */
    method Quote(from: string, src: int) returns (r: Option<int>)
      requires contact != null
      ensures r == if contact.busy || src <= 0 || LocalPart(from) !in members
                      || Get(led.balances, MemberAccount(from)) < src then None
                   else match NodeSpec.PriceOutgoing(contact.View(), src)
                        case Failure(_) => None
                        case Success(dst) => Some(dst)
    {
      if contact.busy {
        return None;
      }
      if src <= 0 || LocalPart(from) !in members || Get(led.balances, MemberAccount(from)) < src {
        return None;
      }
      var price := contact.PriceOutgoing(src);
      if price.Failure? {
        return None;
      }
      r := Some(price.value);
    }

    method HandleTransferPropose(b: Body, ctx: Ctx) returns (reply: Option<Envelope>)
      requires Valid() && b.TransferPropose?
      modifies Parts()
      ensures Valid() && fresh(Parts() - old(Parts())) && Sends(old(outbox), old(outSeq), reply)
      ensures Outcome(View(), reply) == NodeSpec.HandleTransferPropose(old(View()), b, ctx)
    {
      hide Valid, TransfersView, Send, PoolPrice, NodeSpec.ReleaseIfBusyExpired;
      var id := b.transferId;
      if contact == null || !contact.active || contact.closed {
        reply := Reply(ctx, TransferReject(id, UnknownContact));
        return;
      }
      if contact.diverged {
        reply := Reply(ctx, TransferReject(id, Frozen));
        return;
      }
      ReleaseIfBusyExpired(ctx.now);
      var refusal := Objection(b);
      if refusal.Some? {
        reply := Reply(ctx, TransferReject(id, refusal.value));
        return;
      }
      var t := new TransferRecord(contact.id, false, Accepted, b.opSeq, b.fromMember, b.toMember, b.src, b.dst,
                                  b.expires);
      reply := TakeUpAndSay(id, t, ctx, TransferAccept(id));
    }

    /** Why an open contact turns a proposal down, in the order of the checks. */
    method Objection(b: Body) returns (r: Option<RejectCode>)
      requires Valid() && b.TransferPropose? && contact != null
      ensures r == if contact.busy then Some(Busy)
                   else if b.opSeq != contact.opSeq then Some(StalePool)
                   else if LocalPart(b.toMember) !in members then Some(UnknownMember)
                   else if b.src <= 0 then Some(Malformed)
                   else match contact.PriceIncoming(b.src)
                        case Failure(_) => Some(BadPrice)
                        case Success(want) => if want != b.dst then Some(PriceMismatch) else None
    {
      if contact.busy {
        return Some(Busy);
      }
      if b.opSeq != contact.opSeq {
        return Some(StalePool);
      }
      if LocalPart(b.toMember) !in members {
        return Some(UnknownMember);
      }
      if b.src <= 0 {
        return Some(Malformed);
      }
      var want := contact.PriceIncoming(b.src);
      if want.Failure? {
        return Some(BadPrice);
      }
      if want.value != b.dst {
        return Some(PriceMismatch);
      }
      r := None;
    }

    method HandleTransferAccept(b: Body, ctx: Ctx) returns (reply: Option<Envelope>)
      requires Valid() && b.TransferAccept?
      modifies Parts()
      ensures Valid() && Parts() == old(Parts()) && Sends(old(outbox), old(outSeq), reply)
      ensures Outcome(View(), reply) == NodeSpec.HandleTransferAccept(old(View()), b, ctx)
    {
      hide Send, SetState, TransfersView, Valid, NodeSpec.ExpireIfDue, NodeSpec.CommitOutgoing;
      var id := b.transferId;
      TransferAt(id);
      if id !in transfers || !transfers[id].outgoing {
        reply := Reply(ctx, ErrorReply(UnknownTransfer));
        return;
      }
      if contact == null || contact.id != transfers[id].contactId {
        reply := Reply(ctx, ErrorReply(WrongSender));
        return;
      }
      if transfers[id].state.Committed? || transfers[id].state.Settled? {
        return None;
      }
      var expired := ExpireIfDue(id, ctx.now);
      if expired {
        reply := Reply(ctx, TransferAbort(id));
        return;
      }
      TransferAt(id);
      var next := Transition(transfers[id].state, Accept);
      if next.None? {
        reply := Reply(ctx, ErrorReply(BadState));
        return;
      }
      Advance(id, next.value);
      reply := CommitOutgoing(id, ctx);
    }

    /** Append our leg, move the pool, fold the channel root, and send the commit. */
    method CommitOutgoing(id: Id, ctx: Ctx) returns (reply: Option<Envelope>)
      requires Valid() && id in transfers && contact != null && transfers[id].state.Accepted?
      modifies Parts()
      ensures Valid() && Parts() == old(Parts()) && Sends(old(outbox), old(outSeq), reply)
      ensures Outcome(View(), reply) == NodeSpec.CommitOutgoing(old(View()), id, ctx)
    {
      hide Send, SetState, TransfersView, Appended, NodeSpec.ApplyTransfer, Valid;
      TransferAt(id);
      var booked := BookOutgoing(id, transfers[id], ctx);
      if !booked {
        reply := Reply(ctx, ErrorReply(Internal));
        return;
      }
      Advance(id, Transition(transfers[id].state, Commit).value);
      reply := Reply(ctx, TransferCommit(id));
    }

    /** The payer's ledger leg and pool update; refused as a whole if the ledger refuses. */
    method BookOutgoing(id: Id, t: TransferRecord, ctx: Ctx) returns (ok: bool)
      requires Valid() && contact != null
      modifies led, contact
      ensures match Appended(old(led.View()), TwoLegs(ctx, TransferOut, Some(id), MemberAccount(t.fromMember), -t.src,
                                                      NodeWallet(peerHost), t.src))
              case Failure(_) => !ok && View() == old(View())
              case Success(book) =>
                var c := old(contact.View());
                var c' := NodeSpec.ApplyTransfer(c.(myReserveOfPeer := c.myReserveOfPeer + t.src,
                                                    peerReserveOfMe := c.peerReserveOfMe - t.dst),
                                                 id, t.src, t.dst, c.iAmProposer);
                ok && View() == old(View()).(book := book, contact := Some(c'))
    {
      hide Appended, NodeSpec.ApplyTransfer, Valid, TransfersView;
      var r := led.Append(TwoLegs(ctx, TransferOut, Some(id), MemberAccount(t.fromMember), -t.src,
                                  NodeWallet(peerHost), t.src));
      if r.Failure? {
        return false;
      }
      contact.myReserveOfPeer := contact.myReserveOfPeer + t.src;
      contact.peerReserveOfMe := contact.peerReserveOfMe - t.dst;
      contact.ApplyTransfer(id, t.src, t.dst, contact.iAmProposer);
      ok := true;
    }

    lemma TransferAt(id: Id)
      ensures id in TransfersView() <==> id in transfers
      ensures id in transfers ==> TransfersView()[id] == transfers[id].View()
    {
    }

    method HandleTransferCommit(b: Body, ctx: Ctx) returns (reply: Option<Envelope>)
      requires Valid() && b.TransferCommit?
      modifies Parts()
      ensures Valid() && Parts() == old(Parts()) && Sends(old(outbox), old(outSeq), reply)
      ensures Outcome(View(), reply) == NodeSpec.HandleTransferCommit(old(View()), b, ctx)
    {
      hide Send, SetState, TransfersView, Valid, NodeSpec.SettleIncoming;
      var id := b.transferId;
      TransferAt(id);
      if id !in transfers || transfers[id].outgoing {
        reply := Reply(ctx, ErrorReply(UnknownTransfer));
        return;
      }
      if contact == null || contact.id != transfers[id].contactId {
        reply := Reply(ctx, ErrorReply(WrongSender));
        return;
      }
      if transfers[id].state.Settled? || transfers[id].state.Committed? {
        return transfers[id].receipt;
      }
      var next := Transition(transfers[id].state, Commit);
      if next.None? {
        reply := Reply(ctx, ErrorReply(BadState));
        return;
      }
      Advance(id, next.value);
      reply := SettleIncoming(id, ctx);
    }

    /** Append the payout, move the pool, unlock, and answer with a receipt kept for retries. */
    method SettleIncoming(id: Id, ctx: Ctx) returns (reply: Option<Envelope>)
      requires Valid() && id in transfers && contact != null && transfers[id].state.Committed?
      modifies Parts()
      ensures Valid() && Parts() == old(Parts()) && Sends(old(outbox), old(outSeq), reply)
      ensures Outcome(View(), reply) == NodeSpec.SettleIncoming(old(View()), id, ctx)
    {
      hide Send, SetState, Unlocked, TransfersView, Appended, NodeSpec.ApplyTransfer, Valid, Receipted, PaidIn;
      TransferAt(id);
      var paid := PayOut(id, ctx);
      if paid {
        reply := AnswerReceipt(id, ctx);
      } else {
        reply := Reply(ctx, ErrorReply(Internal));
      }
    }

    /** The payee's leg, its pool, the lock and the state, or nothing at all. */
    method PayOut(id: Id, ctx: Ctx) returns (ok: bool)
      requires Valid() && id in transfers && contact != null && transfers[id].state.Committed?
      modifies Parts()
      ensures Valid() && Parts() == old(Parts()) && id in transfers && id in old(View()).transfers
      ensures outbox == old(outbox) && outSeq == old(outSeq)
      ensures match PaidIn(old(View()), id, ctx)
              case None => !ok && View() == old(View())
              case Some(n) => ok && View() == n
    {
      hide Send, SetState, Unlocked, TransfersView, Appended, NodeSpec.ApplyTransfer, Valid;
      TransferAt(id);
      ok := BookIncoming(id, transfers[id], ctx);
      if ok {
        Advance(id, Transition(transfers[id].state, Receipt).value);
      }
    }

    /** Send the receipt and keep it with the transfer. */
    method AnswerReceipt(id: Id, ctx: Ctx) returns (reply: Option<Envelope>)
      requires Valid() && id in transfers
      modifies this`outSeq, this`outbox, transfers[id]
      ensures Valid() && Sends(old(outbox), old(outSeq), reply) && id in old(View()).transfers
      ensures Outcome(View(), reply) == Receipted(old(View()), id, ctx)
    {
      hide TransfersView, Valid;
      reply := Reply(ctx, TransferReceipt(id));
      Mark(id, transfers[id].state, reply);
    }

    /** The payee's ledger leg, pool update and unlock; refused as a whole if the ledger refuses. */
    method BookIncoming(id: Id, t: TransferRecord, ctx: Ctx) returns (ok: bool)
      requires Valid() && contact != null
      modifies led, contact
      ensures match Appended(old(led.View()), TwoLegs(ctx, TransferIn, Some(id), NodeWallet(peerHost), -t.dst,
                                                      MemberAccount(t.toMember), t.dst))
              case Failure(_) => !ok && View() == old(View())
              case Success(book) =>
                var c := old(contact.View());
                var c' := NodeSpec.ApplyTransfer(c.(peerReserveOfMe := c.peerReserveOfMe + t.src,
                                                    myReserveOfPeer := c.myReserveOfPeer - t.dst),
                                                 id, t.src, t.dst, !c.iAmProposer);
                ok && View() == old(View()).(book := book, contact := Some(Unlocked(c')))
    {
      hide Appended, NodeSpec.ApplyTransfer, Valid, TransfersView;
      var r := led.Append(TwoLegs(ctx, TransferIn, Some(id), NodeWallet(peerHost), -t.dst, MemberAccount(t.toMember),
                                  t.dst));
      if r.Failure? {
        return false;
      }
      contact.TakeIn(id, t.src, t.dst);
      ok := true;
    }

    method HandleTransferReceipt(b: Body, ctx: Ctx) returns (reply: Option<Envelope>)
      requires Valid() && b.TransferReceipt?
      modifies Parts()
      ensures Valid() && Parts() == old(Parts()) && Sends(old(outbox), old(outSeq), reply)
      ensures Outcome(View(), reply) == NodeSpec.HandleTransferReceipt(old(View()), b, ctx)
    {
      hide Send, SetState, ReleaseFor, TransfersView, Valid;
      var id := b.transferId;
      TransferAt(id);
      if id !in transfers || !transfers[id].outgoing {
        reply := Reply(ctx, ErrorReply(UnknownTransfer));
        return;
      }
      if contact == null || contact.id != transfers[id].contactId {
        reply := Reply(ctx, ErrorReply(WrongSender));
        return;
      }
      if transfers[id].state.Settled? {
        return None;
      }
      var next := Transition(transfers[id].state, Receipt);
      if next.None? {
        reply := Reply(ctx, ErrorReply(BadState));
        return;
      }
      Advance(id, next.value);
      Release(id);
      reply := None;
    }

    method HandleTransferReject(b: Body) returns (reply: Option<Envelope>)
      requires Valid() && b.TransferReject?
      modifies Parts()
      ensures Valid() && Parts() == old(Parts()) && Sends(old(outbox), old(outSeq), reply)
      ensures Outcome(View(), reply) == NodeSpec.HandleTransferReject(old(View()), b)
    {
      hide SetState, ReleaseFor, TransfersView, Valid;
      var id := b.transferId;
      TransferAt(id);
      reply := None;
      if id in transfers && transfers[id].outgoing && contact != null && contact.id == transfers[id].contactId {
        var next := Transition(transfers[id].state, Reject);
        if next.Some? {
          Advance(id, next.value);
          Release(id);
        }
      }
    }

    method HandleTransferAbort(b: Body) returns (reply: Option<Envelope>)
      requires Valid() && b.TransferAbort?
      modifies Parts()
      ensures Valid() && Parts() == old(Parts()) && Sends(old(outbox), old(outSeq), reply)
      ensures Outcome(View(), reply) == NodeSpec.HandleTransferAbort(old(View()), b)
    {
      hide SetState, ReleaseFor, TransfersView, Valid;
      var id := b.transferId;
      TransferAt(id);
      reply := None;
      if id in transfers && !transfers[id].outgoing && contact != null && contact.id == transfers[id].contactId {
        var next := Transition(transfers[id].state, Abort);
        if next.Some? {
          Advance(id, next.value);
          Release(id);
        }
      }
    }

    method AbortTransfer(ctx: Ctx, id: Id) returns (out: Option<Envelope>, ok: bool)
      requires Valid()
      modifies Parts()
      ensures Valid() && Parts() == old(Parts()) && Sends(old(outbox), old(outSeq), out)
      ensures Done(View(), out, ok) == NodeSpec.AbortTransfer(old(View()), ctx, id)
    {
      hide Send, SetState, ReleaseFor, TransfersView, Valid;
      TransferAt(id);
      if id !in transfers || !transfers[id].outgoing {
        return None, false;
      }
      var next := Transition(transfers[id].state, Abort);
      if next.None? {
        return None, false;
      }
      Advance(id, next.value);
      out := None;
      if contact != null && contact.id == transfers[id].contactId {
        Release(id);
        out := Reply(ctx, TransferAbort(id));
      }
      ok := true;
    }

    // ----- reserve adjustments -----

    method AdjustReserve(ctx: Ctx, delta: int, id: Id) returns (out: Option<Envelope>, ok: bool)
      requires Valid()
      modifies Parts()
      ensures Valid() && Parts() == old(Parts()) && Sends(old(outbox), old(outSeq), out)
      ensures Done(View(), out, ok) == NodeSpec.AdjustReserve(old(View()), ctx, delta, id)
    {
      hide Valid, TransfersView, Send, NodeSpec.ReleaseIfBusyExpired;
      if contact == null || !contact.active || contact.closed || contact.diverged {
        return None, false;
      }
      ReleaseIfBusyExpired(ctx.now);
      if contact.busy || delta == 0 || contact.myReserveOfPeer + delta < 0 {
        return None, false;
      }
      contact.Lock(id);
      contact.pendingAdjust, contact.pendingDelta := Some(id), delta;
      out := Reply(ctx, Body.ReserveAdjust(contact.id, contact.opSeq, id, delta));
      ok := true;
    }

    method HandleReserveAdjust(b: Body, ctx: Ctx) returns (reply: Option<Envelope>)
      requires Valid() && b.ReserveAdjust?
      modifies Parts()
      ensures Valid() && Parts() == old(Parts()) && Sends(old(outbox), old(outSeq), reply)
      ensures Outcome(View(), reply) == NodeSpec.HandleReserveAdjust(old(View()), b, ctx)
    {
      hide Valid, TransfersView, Send, NodeSpec.ReleaseIfBusyExpired, NodeSpec.ApplyAdjust;
      if contact == null || !contact.active || contact.closed {
        reply := Reply(ctx, ErrorReply(NoContact));
        return;
      }
      if contact.diverged {
        reply := Reply(ctx, ErrorReply(ContactFrozen));
        return;
      }
      ReleaseIfBusyExpired(ctx.now);
      if contact.busy {
        reply := Reply(ctx, ErrorReply(ContactBusy));
      } else if b.opSeq != contact.opSeq {
        reply := Reply(ctx, ErrorReply(StaleOp));
      } else if b.myDelta == 0 {
        reply := Reply(ctx, ErrorReply(InvalidPayload));
      } else if b.adjustId in contact.appliedAdjusts {
        reply := Reply(ctx, ReserveAccept(contact.id, b.adjustId));
      } else if contact.peerReserveOfMe + b.myDelta < 0 {
        reply := Reply(ctx, ErrorReply(InsufficientReserve));
      } else {
        contact.Mirror(b.adjustId, b.myDelta);
        reply := Reply(ctx, ReserveAccept(contact.id, b.adjustId));
      }
    }

    method HandleReserveAccept(b: Body, ctx: Ctx) returns (reply: Option<Envelope>)
      requires Valid() && b.ReserveAccept?
      modifies Parts()
      ensures Valid() && Parts() == old(Parts()) && Sends(old(outbox), old(outSeq), reply)
      ensures Outcome(View(), reply) == NodeSpec.HandleReserveAccept(old(View()), b, ctx)
    {
      hide Valid, TransfersView, Send, Appended, NodeSpec.ApplyAdjust;
      if contact == null {
        reply := Reply(ctx, ErrorReply(NoContact));
        return;
      }
      if contact.pendingAdjust != Some(b.adjustId) {
        return None;
      }
      var delta := contact.pendingDelta;
      var r := led.Append(TwoLegs(ctx, TxType.ReserveAdjust, Some(b.adjustId), NodeWallet(peerHost), delta, Treasury,
                                  -delta));
      if r.Failure? {
        reply := Reply(ctx, ErrorReply(Internal));
        return;
      }
      contact.FinishPending(b.adjustId);
      reply := None;
    }

    // ----- inbound -----

    method Route(b: Body, ctx: Ctx, autoSeed: int) returns (reply: Option<Envelope>)
      requires Valid()
      modifies Parts()
      ensures Valid() && fresh(Parts() - old(Parts())) && Sends(old(outbox), old(outSeq), reply)
      ensures Outcome(View(), reply) == NodeSpec.Route(old(View()), b, ctx, autoSeed)
    {
      hide Valid, View, Send, NodeSpec.HandleContactPropose, NodeSpec.HandleContactAccept,
        NodeSpec.HandleTransferPropose, NodeSpec.HandleTransferAccept, NodeSpec.HandleTransferReject,
        NodeSpec.HandleTransferCommit, NodeSpec.HandleTransferReceipt, NodeSpec.HandleTransferAbort,
        NodeSpec.HandleReserveAdjust, NodeSpec.HandleReserveAccept, NodeSpec.HandleContactUpdate,
        NodeSpec.HandleContactClose;
      match b {
        case ContactPropose(_, _) => reply := HandleContactPropose(b, ctx, autoSeed);
        case ContactAccept(_, _) => reply := HandleContactAccept(b, ctx);
        case ContactUpdate(_) => reply := HandleContactUpdate(ctx);
        case ContactClose(_) => reply := HandleContactClose();
        case TransferPropose(_, _, _, _, _, _, _, _) => reply := HandleTransferPropose(b, ctx);
        case TransferAccept(_) => reply := HandleTransferAccept(b, ctx);
        case TransferReject(_, _) => reply := HandleTransferReject(b);
        case TransferCommit(_) => reply := HandleTransferCommit(b, ctx);
        case TransferReceipt(_) => reply := HandleTransferReceipt(b, ctx);
        case TransferAbort(_) => reply := HandleTransferAbort(b);
        case ReserveAdjust(_, _, _, _) => reply := HandleReserveAdjust(b, ctx);
        case ReserveAccept(_, _) => reply := HandleReserveAccept(b, ctx);
        case Ping => reply := Reply(ctx, Pong);
        case Pong => reply := None;
        case ErrorReply(_) => reply := None;
        case Unknown => reply := Reply(ctx, ErrorReply(UnknownType));
      }
    }

    /** Validate one envelope, handle it, and remember the answer for a repeated request. */
    /** Note an envelope as processed, and the answer it got. */
    method Remember(env: Envelope, reply: Option<Envelope>)
      requires Valid()
      modifies `seen, `lastSeq, `replies
      ensures Valid() && Parts() == old(Parts()) && View() == Processed(old(View()), env, reply)
    {
      hide TransfersView;
      seen := seen + {env.id};
      if env.seqNo > lastSeq {
        lastSeq := env.seqNo;
      }
      if reply.Some? {
        replies := replies[env.id := reply.value];
      }
    }

    method ProcessInbound(env: Envelope, ctx: Ctx, autoSeed: int) returns (verdict: Verdict, reply: Option<Envelope>)
      requires Valid()
      modifies Parts()
      ensures Valid() && fresh(Parts() - old(Parts()))
      ensures Received(View(), verdict, reply) == NodeSpec.ProcessInbound(old(View()), env, ctx, autoSeed)
      ensures Sends(old(outbox), old(outSeq), reply)
    {
      hide Valid, TransfersView, NodeSpec.Route, Processed, Validate;
      verdict := Validate(env, seen, lastSeq, ctx.now);
      if verdict.Duplicate? {
        return verdict, if env.id in replies then Some(replies[env.id]) else None;
      }
      if !verdict.Ok? {
        return verdict, None;
      }
      reply := Route(env.body, ctx, autoSeed);
      Remember(env, reply);
    }

    // ----- checkpoints -----

    method Checkpoint() returns (cp: Option<NodeSpec.Checkpoint>)
      requires Valid()
      ensures cp == Publish(View())
    {
      if contact == null {
        return None;
      }
      cp := Some(NodeSpec.Checkpoint(contact.id, contact.opSeq, contact.root, lastSeq));
    }

    /** Drop what the peer's checkpoint acknowledges, then compare it with the root recorded at
        its operation number. */
    method ReconcilePeer(cp: NodeSpec.Checkpoint) returns (diverged: bool)
      requires Valid()
      modifies Parts()
      ensures Valid() && Parts() == old(Parts())
      ensures outbox == if old(OwnsContact(View(), cp.contactId)) && cp.lastSeq > 0
                        then Delivery.Unacknowledged(old(outbox), cp.lastSeq) else old(outbox)
      ensures View() == Reconcile(old(View()), cp) && diverged == Freezes(old(View()), cp)
    {
      hide TransfersView;
      if contact == null || contact.id != cp.contactId {
        return false;
      }
      var pruned := PruneOutbox(cp.lastSeq);
      if 0 <= cp.opSeq <= contact.opSeq && cp.opSeq < |contact.roots| && cp.root != contact.roots[cp.opSeq] {
        contact.diverged := true;
        return true;
      }
      diverged := false;
    }

    // ----- giving up on a peer -----

    /** Return to issuance what is held for a peer that is gone for good: only on a closed contact,
        and the supply shrinks by exactly that.  The reserve counter is left as it was. */
    method RetireReserve(ctx: Ctx) returns (retired: int, ok: bool)
      requires Valid()
      modifies led
      ensures ok == (contact != null && contact.closed)
      ensures retired == if ok && Get(old(led.balances), NodeWallet(peerHost)) > 0
                         then Get(old(led.balances), NodeWallet(peerHost)) else 0
      ensures forall a :: Get(led.balances, a) ==
                          Get(old(led.balances), a) + (if a == Issuance then retired else 0)
                          - (if a == NodeWallet(peerHost) then retired else 0)
      ensures MoneySupply(led.balances) == MoneySupply(old(led.balances)) - retired
      ensures Sound(old(led.View())) ==> Sound(led.View())
      ensures contact != null ==> contact.View() == old(contact.View())
    {
      if contact == null || !contact.closed {
        return 0, false;
      }
      hide Sound, Shaped;
      var wallet := NodeWallet(peerHost);
      var held := Get(led.balances, wallet);
      if held <= 0 {
        return 0, true;
      }
      var tx := TwoLegs(ctx, ReserveRetire, None, wallet, -held, Issuance, held);
      TwoLegsAmounts(tx.entries[0], tx.entries[1]);
      if Sound(led.View()) {
        RetiringIsShaped(tx, wallet, held);
        AppendKeepsSound(led.View(), tx);
      }
      var r := led.Append(tx);
      forall a ensures Get(led.balances, a) == Get(old(led.balances), a) + EntrySum(tx.entries, a) {
        PostGet(old(led.balances), tx.entries, a);
      }
      return held, true;
    }

    static lemma RetiringIsShaped(tx: Tx, wallet: Account, held: int)
      requires tx.typ.ReserveRetire? && tx.entries == [Entry(wallet, -held), Entry(Issuance, held)]
      requires wallet.NodeWallet? && held > 0
      ensures Shaped(tx) && NamesWalletsOnce(tx)
    {
      TwoEntriesIssue(tx);
      hide Issued;
    }

    // ----- delivery -----

    /** The first envelope the cursor has not passed. */
    method NextToPush() returns (next: Option<Envelope>)
      ensures next == Delivery.FirstAfter(outbox, pushed)
    {
      for i := 0 to |outbox|
        invariant forall k :: 0 <= k < i ==> outbox[k].seqNo <= pushed
      {
        if outbox[i].seqNo > pushed {
          Delivery.FirstAfterAt(outbox, pushed, i);
          return Some(outbox[i]);
        }
      }
      Delivery.FirstAfterAt(outbox, pushed, |outbox|);
      next := None;
    }

    /** Push in order until the outbox is exhausted or a delivery fails; oks tells, attempt by
        attempt, whether it succeeded.  The cursor only moves over what was delivered. */
    method PushHost(oks: seq<bool>) returns (tried: seq<Envelope>)
      modifies `pushed
      ensures pushed >= old(pushed)
      ensures Delivery.InTurn(outbox, old(pushed), tried)
      ensures forall i :: 0 <= i < |tried| - 1 ==> i < |oks| && oks[i]
      ensures match Delivery.FirstAfter(outbox, pushed)
              case None => true
              case Some(e) => |tried| > 0 && e == tried[|tried| - 1] && (|tried| - 1 < |oks| ==> !oks[|tried| - 1])
    {
      hide Delivery.FirstAfter, Delivery.InTurn;
      tried := [];
      Delivery.InTurnNone(outbox, pushed);
      while true
        invariant pushed >= old(pushed) && pushed == Delivery.CursorAt(old(pushed), tried, |tried|)
        invariant |tried| <= |oks| && forall i :: 0 <= i < |tried| ==> oks[i]
        invariant Delivery.InTurn(outbox, old(pushed), tried)
        decreases |oks| - |tried|
      {
        var next := NextToPush();
        if next.None? {
          return;
        }
        Delivery.FirstAfterPasses(outbox, pushed);
        Delivery.InTurnNext(outbox, old(pushed), tried, next.value);
        var attempt := |tried|;
        tried := tried + [next.value];
        if attempt >= |oks| || !oks[attempt] {
          return;
        }
        pushed := next.value.seqNo;
      }
    }

    /** Drop what the peer reports as processed. */
    method PruneOutbox(upto: int) returns (removed: nat)
      modifies `outbox
      ensures outbox == if upto <= 0 then old(outbox) else Delivery.Unacknowledged(old(outbox), upto)
      ensures removed == |old(outbox)| - |outbox|
    {
      if upto <= 0 {
        return 0;
      }
      var src := outbox;
      var kept: seq<Envelope> := [];
      removed := 0;
      for i := 0 to |src|
        invariant kept == Delivery.Unacknowledged(src[..i], upto) && removed + |kept| == i && outbox == src
      {
        assert src[..i + 1] == src[..i] + [src[i]];
        Delivery.UnacknowledgedMore(src[..i], src[i], upto);
        if src[i].seqNo <= upto {
          removed := removed + 1;
        } else {
          kept := kept + [src[i]];
        }
      }
      assert src[..|src|] == src;
      outbox := kept;
    }

    /** Process a fetched outbox in order; returns how many envelopes were newly accepted. */
    method PollPeer(envs: seq<Envelope>, ctxs: seq<Ctx>, autoSeed: int) returns (accepted: nat)
      requires Valid() && |ctxs| == |envs|
      modifies Parts()
      ensures Valid() && fresh(Parts() - old(Parts()))
      ensures (View(), accepted) == Polled(old(View()), envs, ctxs, autoSeed)
    {
      hide Valid, View, NodeSpec.ProcessInbound;
      accepted := 0;
      for i := 0 to |envs|
        invariant Valid() && fresh(Parts() - old(Parts()))
        invariant (View(), accepted) == Polled(old(View()), envs[..i], ctxs[..i], autoSeed)
      {
        assert envs[..i + 1][..i] == envs[..i] && ctxs[..i + 1][..i] == ctxs[..i];
        var verdict, reply := ProcessInbound(envs[i], ctxs[i], autoSeed);
        if verdict.Ok? {
          accepted := accepted + 1;
        }
      }
      assert envs[..|envs|] == envs && ctxs[..|ctxs|] == ctxs;
    }
  }
}
