/** What a published checkpoint says of its publisher, and why pruning by it loses nothing. */
module SystemCheckpoints {
  import opened Wrappers
  import opened ChannelHistory
  import opened Messages
  import opened NodeSpec
  import opened NodeInvariant
  import opened NodeGate
  import opened NodeSteps
  import opened NodeTriggers
  import opened Systems
  import opened SystemInvariant
  import opened SystemRuns
  import opened SystemSafety
  import opened SystemTurns
  import opened SystemRetries
  import opened SystemReplies
  import opened SystemFutures
  import D = Delivery
  import P = ProtocolInvariant

  // ----- what is published -----

  /** The last thing published tells where the node stands: the contact, its operation number and
      root, and the position up to which the peer's envelopes were processed. */
  ghost predicate Tells(n: NodeState, p: Posted) {
    var cp := p.checkpoint;
    && n.contact.Some? && cp.contactId == n.contact.value.id && cp.lastSeq == n.lastSeq
    && cp.opSeq == n.contact.value.opSeq && p.active == n.contact.value.active
    && if p.active then cp.opSeq == |History(n)| - 1 && cp.root == RootOf(cp.contactId, History(n))
       else cp.opSeq == 0 && cp.root == Zero
  }

  lemma PublishTells(n: NodeState)
    requires Linked(n)
    ensures if n.contact.None? then Posting(n) == [] else |Posting(n)| == 1 && Tells(n, Posting(n)[0])
  {
    hide RootOf, Reserves;
  }

  /** A node with a contact publishes exactly one checkpoint when it publishes, and it is current. */
  lemma PostIsCurrent(r: seq<System>, turns: seq<Turn>, k: nat)
    requires Follows(r, turns) && k < |turns| && turns[k].act.Post?
    ensures var me, me' := Mine(r[k], turns[k].first), Mine(r[k + 1], turns[k].first);
            && me'.mem == me.mem && me'.disk == me.disk && me'.sent == me.sent
            && if me.mem.contact.None? then me'.posted == me.posted
               else exists p :: Tells(me.mem, p) && me'.posted == me.posted + [p]
  {
    hide Follows, Enabled, Tells, Posting, Met, Good;
    var first := turns[k].first;
    Lengths(r, turns);
    TurnTaken(r, turns, k, first);
    var me, peer := Mine(r[k], first), Theirs(r[k], first);
    MetAt(r, turns, k, first, me.mem, peer.mem);
    MetGood(me, me.mem, peer, peer.mem);
    GoodLinked(me.mem, CoreOf(peer.mem), me.sent, peer.sent);
    PublishTells(me.mem);
    if me.mem.contact.Some? {
      assert Posting(me.mem) == [Posting(me.mem)[0]];
    }
  }

  // ----- where the publisher stands later -----

  ghost predicate Reached(s: Side) {
    forall j :: 0 <= j < |s.posted| ==>
      s.posted[j].checkpoint.lastSeq <= s.mem.lastSeq && s.posted[j].checkpoint.lastSeq <= s.disk.lastSeq
  }

  lemma StepReaches(me: Side, peer: Side, act: Action)
    requires Reached(me) && Behind(me.disk, me.mem)
    requires !act.Restart? && !act.Post? ==> Onto(me.mem, Act(me.mem, peer, act).node)
    requires var me' := Step(me, peer, act); Behind(me'.disk, me'.mem)
    ensures Reached(Step(me, peer, act))
  {
    hide Act, Behind;
    var me' := Step(me, peer, act);
    RememberTogether(me, me.mem, me.disk);
    RememberTogether(me', me'.mem, me'.disk);
    RestoredGate(me.disk);
    PostingAt(me.mem);
  }

  lemma PostingAt(n: NodeState)
    ensures forall j :: 0 <= j < |Posting(n)| ==> Posting(n)[j].checkpoint.lastSeq == n.lastSeq
  {
  }

  lemma AlwaysOnto(n: NodeState, peer: Side, act: Action)
    ensures Onto(n, Act(n, peer, act).node)
  {
    hide Act, ActsLike;
    ActLike(n, peer, act);
    LikeOnto(n, peer, act);
  }

  lemma NothingPosted(r: seq<System>, turns: seq<Turn>, first: bool)
    requires Follows(r, turns)
    ensures Mine(r[0], first).posted == []
  {
  }

  /** In every state of every run, memory and disk of the publisher stand at or past the position of
      each checkpoint it ever published. */
  lemma {:induction false} CheckpointsWereReached(r: seq<System>, turns: seq<Turn>, k: nat, first: bool)
    requires Follows(r, turns) && k < |r|
    ensures Reached(Mine(r[k], first))
  {
    hide Follows, Act, Step, Reached, Behind, Enabled;
    if k == 0 {
      NothingPosted(r, turns, first);
      NoneReached(Mine(r[0], first));
    } else {
      Lengths(r, turns);
      CheckpointsWereReached(r, turns, k - 1, first);
      TurnTaken(r, turns, k - 1, first);
      SideBehind(r, turns, k - 1, first);
      SideBehind(r, turns, k, first);
      if turns[k - 1].first == first {
        AlwaysOnto(Mine(r[k - 1], first).mem, Theirs(r[k - 1], first), turns[k - 1].act);
        StepReaches(Mine(r[k - 1], first), Theirs(r[k - 1], first), turns[k - 1].act);
      }
    }
  }

  lemma NoneReached(s: Side)
    requires s.posted == []
    ensures Reached(s)
  {
  }

  lemma ReachedAt(s: Side, j: nat, n: NodeState)
    requires Reached(s) && j < |s.posted| && Holds(s, n)
    ensures s.posted[j].checkpoint.lastSeq <= n.lastSeq
  {
  }

  // ----- pruning -----

  /** Whatever end of its log the peer still has in its outbox, and whichever checkpoint it prunes
      by: what stays is the log from that checkpoint's position on, so no envelope that the
      publisher, in memory or after a restart, has yet to process is lost. */
  lemma PruningIsSafe(r: seq<System>, k: nat, first: bool, n: NodeState, j: nat, a: nat)
    requires IsRun(r) && k < |r| && Holds(Mine(r[k], first), n)
    requires j < |Mine(r[k], first).posted| && a <= |Theirs(r[k], first).sent|
    ensures var sy := Theirs(r[k], first).sent;
            var upto := Mine(r[k], first).posted[j].checkpoint.lastSeq;
            var kept := D.Unacknowledged(sy[a..], upto);
            && upto <= n.lastSeq <= |sy|
            && kept == sy[if upto <= a then a else upto..]
            && (a <= n.lastSeq ==> kept[|kept| - (|sy| - n.lastSeq)..] == sy[n.lastSeq..])
            && forall e :: e in sy[a..] && e.seqNo > n.lastSeq ==> e in kept
  {
    hide IsRun, Follows, Reached, Met, Numbered, D.Unacknowledged, Good;
    var turns := RunFollows(r);
    CheckpointsWereReached(r, turns, k, first);
    var me, peer := Mine(r[k], first), Theirs(r[k], first);
    ReachedAt(me, j, n);
    MetAt(r, turns, k, first, n, peer.mem);
    WithinSent(me, n, peer, peer.mem);
    MetGood(me, n, peer, peer.mem);
    OutSeqIs(peer.mem, CoreOf(n), peer.sent, me.sent);
    CutFrom(peer.sent, a, me.posted[j].checkpoint.lastSeq, n.lastSeq);
  }

  lemma CutFrom(sy: Sent, a: nat, upto: int, last: nat)
    requires Numbered(sy) && a <= |sy| && upto <= last <= |sy|
    ensures var kept := D.Unacknowledged(sy[a..], upto);
            && kept == sy[if upto <= a then a else upto..]
            && (a <= last ==> kept[|kept| - (|sy| - last)..] == sy[last..])
            && forall e :: e in sy[a..] && e.seqNo > last ==> e in kept
  {
    hide D.Unacknowledged;
    D.PruneIsCut(sy[a..], |sy|, upto);
    TailsOf(sy, a, if upto <= a then a else upto, last);
  }

  lemma TailsOf(sy: Sent, a: nat, from: nat, last: nat)
    requires Numbered(sy) && a <= from <= |sy| && last <= |sy| && (from == a || from <= last)
    ensures a <= last ==> sy[from..][|sy[from..]| - (|sy| - last)..] == sy[last..]
    ensures forall e :: e in sy[a..] && e.seqNo > last ==> e in sy[from..]
  {
    forall e | e in sy[a..] && e.seqNo > last ensures e in sy[from..] {
      var i :| 0 <= i < |sy[a..]| && sy[a..][i] == e;
      assert e == sy[a + i] && sy[a + i].seqNo == a + i + 1;
      assert e == sy[from..][a + i - from];
    }
  }
}
