/** A contact as the node holds it, updated in place. */
module Contacts {
  import opened Wrappers
  import opened PoolPricing
  import opened ChannelHistory
  import opened Messages
  import opened TransferStates
  import NodeSpec

  class Contact {
    const id: Id
    const iAmProposer: bool
    const proposerSeed: int
    var active: bool
    var closed: bool
    var diverged: bool
    var responderSeed: int
    var myReserveOfPeer: int
    var peerReserveOfMe: int
    var opSeq: int
    var root: Digest
    var roots: seq<Digest>
    var busy: bool
    var busyTransfer: Option<Id>
    var pendingAdjust: Option<Id>
    var pendingDelta: int
    var appliedAdjusts: set<Id>
    /** The operations the root stands for; nothing that runs reads it. */
    ghost var history: seq<Op>

    ghost function View(): NodeSpec.Contact
      reads this
    {
      NodeSpec.Contact(id, iAmProposer, active, closed, diverged, proposerSeed, responderSeed, myReserveOfPeer,
                       peerReserveOfMe, opSeq, root, roots, busy, busyTransfer, pendingAdjust, pendingDelta,
                       appliedAdjusts, history)
    }

    constructor (id: Id, iAmProposer: bool, proposerSeed: int, responderSeed: int)
      ensures View() == NodeSpec.FreshContact(id, iAmProposer, proposerSeed, responderSeed)
    {
      this.id, this.iAmProposer, this.proposerSeed, this.responderSeed := id, iAmProposer, proposerSeed, responderSeed;
      active, closed, diverged := false, false, false;
      myReserveOfPeer, peerReserveOfMe := 0, 0;
      opSeq, root, roots := 0, Zero, [];
      busy, busyTransfer, pendingAdjust, pendingDelta := false, None, None, 0;
      appliedAdjusts, history := {}, [];
    }

    /** Store the current root at index opSeq, padding the list up to there. */
    method RecordRoot()
      modifies this`roots
      ensures View() == NodeSpec.RecordRoot(old(View()))
    {
      if opSeq < 0 {
        return;
      }
      ghost var before := roots;
      while |roots| <= opSeq
        invariant roots == before + seq(|roots| - |before|, i => Zero)
        invariant |before| <= |roots| && (|roots| <= opSeq + 1 || roots == before)
        decreases opSeq - |roots|
      {
        roots := roots + [Zero];
      }
      assert roots == NodeSpec.Padded(before, opSeq + 1);
      roots := roots[opSeq := root];
    }

    method ApplySeed()
      modifies this
      ensures View() == NodeSpec.ApplySeed(old(View()))
    {
      root := ChannelNext(ChannelRoot0(id), "seed", id, proposerSeed, responderSeed);
      opSeq := 0;
      history := [Seeded(id, proposerSeed, responderSeed)];
      RecordRoot();
    }

    /** Mirror both reserves from the seeds, fold operation 0, and open the contact. */
    method Activate(mine: int, theirs: int)
      modifies this
      ensures View() == NodeSpec.ApplySeed(old(View()).(myReserveOfPeer := mine,
                                                        peerReserveOfMe := theirs)).(active := true)
    {
      myReserveOfPeer, peerReserveOfMe := mine, theirs;
      ApplySeed();
      active := true;
    }

    method ApplyTransfer(transferId: Id, src: int, dst: int, ghost byProposer: bool)
      modifies this
      ensures View() == NodeSpec.ApplyTransfer(old(View()), transferId, src, dst, byProposer)
    {
      root := ChannelNext(root, "transfer", transferId, src, dst);
      opSeq := opSeq + 1;
      history := history + [Transferred(transferId, byProposer, src, dst)];
      RecordRoot();
    }

    method ApplyAdjust(adjustId: Id, delta: int, ghost byProposer: bool)
      modifies this
      ensures View() == NodeSpec.ApplyAdjust(old(View()), adjustId, delta, byProposer)
    {
      root := ChannelNext(root, "adjust", adjustId, delta, 0);
      opSeq := opSeq + 1;
      history := history + [Adjusted(adjustId, byProposer, delta)];
      RecordRoot();
    }

    /** Mirror the peer's change of its own reserve, and remember having done so. */
    method Mirror(adjustId: Id, delta: int)
      modifies this
      ensures var c := old(View());
              var c' := NodeSpec.ApplyAdjust(c.(peerReserveOfMe := c.peerReserveOfMe + delta), adjustId, delta,
                                             !c.iAmProposer);
              View() == c'.(appliedAdjusts := c'.appliedAdjusts + {adjustId})
    {
      hide NodeSpec.RecordRoot, ChannelNext;
      peerReserveOfMe := peerReserveOfMe + delta;
      ApplyAdjust(adjustId, delta, !iAmProposer);
      appliedAdjusts := appliedAdjusts + {adjustId};
    }

    /** The payee's side of a transfer: both reserves, the operation, and the lock. */
    method TakeIn(id: Id, src: int, dst: int)
      modifies this
      ensures var c := old(View());
              var c' := NodeSpec.ApplyTransfer(c.(peerReserveOfMe := c.peerReserveOfMe + src,
                                                  myReserveOfPeer := c.myReserveOfPeer - dst),
                                               id, src, dst, !c.iAmProposer);
              View() == NodeSpec.Unlocked(c')
    {
      hide NodeSpec.RecordRoot, ChannelNext;
      peerReserveOfMe := peerReserveOfMe + src;
      myReserveOfPeer := myReserveOfPeer - dst;
      ApplyTransfer(id, src, dst, !iAmProposer);
      Unlock();
    }

    /** Apply the pending change of the own reserve, and end the operation. */
    method FinishPending(adjustId: Id)
      modifies this
      ensures var c := old(View());
              var c' := NodeSpec.ApplyAdjust(c.(myReserveOfPeer := c.myReserveOfPeer + c.pendingDelta), adjustId,
                                             c.pendingDelta, c.iAmProposer);
              View() == NodeSpec.Unlocked(c').(pendingAdjust := None, pendingDelta := 0)
    {
      hide NodeSpec.RecordRoot, ChannelNext;
      myReserveOfPeer := myReserveOfPeer + pendingDelta;
      ApplyAdjust(adjustId, pendingDelta, iAmProposer);
      Unlock();
      pendingAdjust, pendingDelta := None, 0;
    }

    /** What a payment of src to the peer pays there, and what one of the peer's pays here. */
    function PriceOutgoing(src: int): (r: Result<int, PriceError>)
      reads this
      ensures r.Success? ==> src > 0 && 0 < r.value < peerReserveOfMe
    {
      PoolPrice(myReserveOfPeer, peerReserveOfMe, src)
    }

    function PriceIncoming(src: int): (r: Result<int, PriceError>)
      reads this
      ensures r.Success? ==> src > 0 && 0 < r.value < myReserveOfPeer
    {
      PoolPrice(peerReserveOfMe, myReserveOfPeer, src)
    }

    method Lock(holder: Id)
      modifies this`busy, this`busyTransfer
      ensures View() == NodeSpec.LockedBy(old(View()), holder)
    {
      busy, busyTransfer := true, Some(holder);
    }

    method Unlock()
      modifies this`busy, this`busyTransfer
      ensures View() == NodeSpec.Unlocked(old(View()))
    {
      busy, busyTransfer := false, None;
    }
  }

  /** One transfer of the node; only its state and its stored receipt ever change. */
  class TransferRecord {
    const contactId: Id
    const outgoing: bool
    const opSeq: int
    const fromMember: string
    const toMember: string
    const src: int
    const dst: int
    const expires: int
    var state: State
    var receipt: Option<Envelope>

    ghost function View(): NodeSpec.Transfer
      reads this
    {
      NodeSpec.Transfer(contactId, outgoing, state, opSeq, fromMember, toMember, src, dst, expires, receipt)
    }

    constructor (contactId: Id, outgoing: bool, state: State, opSeq: int, fromMember: string, toMember: string,
                 src: int, dst: int, expires: int)
      ensures View() == NodeSpec.Transfer(contactId, outgoing, state, opSeq, fromMember, toMember, src, dst,
                                          expires, None)
    {
      this.contactId, this.outgoing, this.state, this.opSeq := contactId, outgoing, state, opSeq;
      this.fromMember, this.toMember, this.src, this.dst := fromMember, toMember, src, dst;
      this.expires, receipt := expires, None;
    }
  }
}
