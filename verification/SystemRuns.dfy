/** Every state of every run satisfies the invariant, and what was stored only grows. */
module SystemRuns {
  import opened Wrappers
  import opened ChannelHistory
  import opened Messages
  import opened NodeSpec
  import opened NodeInvariant
  import opened NodeRecords
  import opened NodeSteps
  import opened NodeTransferSteps
  import opened NodeAdjustSteps
  import opened NodeGrowth
  import opened Systems
  import opened SystemInvariant
  import P = ProtocolInvariant
  import M = ProtocolMoves

  // ----- the invariant of a pair -----

  ghost predicate NodeOk(n: NodeState, sx: Sent) { Linked(n) && Kept(n) && Logged(n, sx) }

  /** A checkpoint shows a prefix of the history, or the zero root of a contact not yet active. */
  ghost predicate PostOk(n: NodeState, p: Posted) {
    var cp := p.checkpoint;
    && n.contact.Some? && cp.contactId == n.contact.value.id
    && if p.active
       then 0 <= cp.opSeq < |n.contact.value.history|
         && cp.root == RootOf(cp.contactId, n.contact.value.history[..cp.opSeq + 1])
       else cp.opSeq == 0 && cp.root == Zero
  }

  ghost predicate PostedOk(n: NodeState, posted: seq<Posted>) {
    forall j :: 0 <= j < |posted| ==> PostOk(n, posted[j])
  }

  ghost predicate SideOk(s: Side) {
    NodeOk(s.mem, s.sent) && NodeOk(s.disk, s.sent) && Behind(s.disk, s.mem) && PostedOk(s.mem, s.posted)
  }

  ghost predicate InStep(n: NodeState, m: NodeState, sx: Sent, sy: Sent) { P.Inv(CoreOf(n), CoreOf(m), sx, sy) }

  /** Whichever state each node wakes up in, the two are in step. */
  ghost predicate AllInStep(s: Side, t: Side) {
    && InStep(s.mem, t.mem, s.sent, t.sent) && InStep(s.mem, t.disk, s.sent, t.sent)
    && InStep(s.disk, t.mem, s.sent, t.sent) && InStep(s.disk, t.disk, s.sent, t.sent)
  }

  ghost predicate SystemOk(s: System) { SideOk(s.a) && SideOk(s.b) && AllInStep(s.a, s.b) }

  lemma InvTurned(x: P.Core, y: P.Core, sx: Sent, sy: Sent)
    requires P.Inv(x, y, sx, sy)
    ensures P.Inv(y, x, sy, sx)
  {
    hide P.Self, P.Pairing, P.Flow;
  }

  lemma Turned(s: Side, t: Side)
    requires AllInStep(s, t)
    ensures AllInStep(t, s)
  {
    hide P.Inv;
    InvTurned(CoreOf(s.mem), CoreOf(t.mem), s.sent, t.sent);
    InvTurned(CoreOf(s.mem), CoreOf(t.disk), s.sent, t.sent);
    InvTurned(CoreOf(s.disk), CoreOf(t.mem), s.sent, t.sent);
    InvTurned(CoreOf(s.disk), CoreOf(t.disk), s.sent, t.sent);
  }

  lemma GoodIs(n: NodeState, m: NodeState, sx: Sent, sy: Sent)
    ensures Good(n, CoreOf(m), sx, sy) <==> NodeOk(n, sx) && InStep(n, m, sx, sy)
  {
    hide P.Inv, Linked, Kept, Logged, CoreOf;
  }

  // ----- the first state -----

  lemma StartedOk(n: NodeState)
    requires Started(n)
    ensures NodeOk(n, [])
  {
    assert CoreOf(n).legs == map[];
  }

  lemma StartedInStep(n: NodeState, m: NodeState)
    requires Started(n) && Started(m)
    ensures InStep(n, m, [], [])
  {
    assert CoreOf(n).legs == map[] && CoreOf(m).legs == map[];
  }

  lemma InitOk(s: System)
    requires Init(s)
    ensures SystemOk(s)
  {
    hide InStep, NodeOk;
    StartedOk(s.a.mem);
    StartedOk(s.b.mem);
    StartedInStep(s.a.mem, s.b.mem);
  }

  // ----- posting and growing -----

  lemma PostingOk(n: NodeState, posted: seq<Posted>)
    requires Linked(n) && PostedOk(n, posted)
    ensures PostedOk(n, posted + Posting(n))
  {
    hide RootOf, Reserved;
    if n.contact.Some? && n.contact.value.active {
      var h := n.contact.value.history;
      assert h[..|h|] == h;
    }
  }

  lemma PostedGrows(n: NodeState, n': NodeState, posted: seq<Posted>)
    requires PostedOk(n, posted) && ContactGrows(n, n')
    ensures PostedOk(n', posted)
  {
    hide RootOf;
    forall j | 0 <= j < |posted| ensures PostOk(n', posted[j]) {
      var p := posted[j];
      assert PostOk(n, p);
      if p.active {
        var k := p.checkpoint.opSeq + 1;
        assert n'.contact.value.history[..k] == n.contact.value.history[..k];
      }
    }
  }

  lemma BehindGrows(d: NodeState, m: NodeState)
    requires Behind(d, m)
    ensures Grows(d, m) && ContactGrows(m, d)
  {
  }

  // ----- one step -----

  /** What was stored, sent and published is still there. */
  ghost predicate SideGrows(s: Side, s': Side) {
    Grows(s.disk, s'.disk) && s.sent <= s'.sent && s.posted <= s'.posted
  }

  lemma UnusedIsFresh(me: Side, peer: Side, m: NodeState, id: Id)
    requires Unused(me, peer, id) && (m == peer.mem || m == peer.disk)
    ensures Fresh(me.mem, CoreOf(m), me.sent, peer.sent, id)
  {
    hide M.Unmentioned;
  }

  lemma ActedOk(me: Side, peer: Side, act: Action, m: NodeState)
    requires SideOk(me) && NodeOk(m, peer.sent) && Enabled(me, peer, act) && (m == peer.mem || m == peer.disk)
    requires InStep(me.mem, m, me.sent, peer.sent)
    ensures var r := Act(me.mem, peer, act);
            var sx := SentAfter(me.sent, me.mem, r.node, r.out);
            && NodeOk(r.node, sx) && InStep(r.node, m, sx, peer.sent) && Grows(me.mem, r.node)
  {
    hide NodeOk, InStep, Good, Act, Fresh, Grows, Unused, Behind, PostedOk, OwnTx;
    GoodIs(me.mem, m, me.sent, peer.sent);
    IsNumbered(m, peer.sent);
    if Draws(act) {
      UnusedIsFresh(me, peer, m, act.id);
      FreshIsNew(me.mem, CoreOf(m), me.sent, peer.sent, act.id);
    }
    ActGood(me.mem, CoreOf(m), me.sent, peer, act);
    ActGrows(me.mem, CoreOf(m), me.sent, peer, act);
    var r := Act(me.mem, peer, act);
    GoodIs(r.node, m, SentAfter(me.sent, me.mem, r.node, r.out), peer.sent);
  }

  lemma IsNumbered(m: NodeState, sy: Sent)
    requires NodeOk(m, sy)
    ensures Numbered(sy)
  {
    hide Linked, Kept, Numbered;
  }

  lemma FreshIsNew(n: NodeState, y: P.Core, sx: Sent, sy: Sent, id: Id)
    requires Fresh(n, y, sx, sy, id)
    ensures id !in n.transfers
  {
    hide M.Unmentioned, CoreOf;
  }

  lemma StepOk(me: Side, peer: Side, act: Action)
    requires SideOk(me) && SideOk(peer) && AllInStep(me, peer) && Enabled(me, peer, act)
    ensures var me' := Step(me, peer, act); SideOk(me') && AllInStep(me', peer) && SideGrows(me, me')
  {
    hide NodeOk, InStep, Act, Grows, PostedOk, Enabled, Behind, ContactGrows;
    SameGrows(me.disk);
    if act.Restart? {
      BehindGrows(me.disk, me.mem);
      PostedGrows(me.mem, me.disk, me.posted);
      RestartOk(me, peer);
    } else if act.Post? {
      NodeOkLinked(me.mem, me.sent);
      PostingOk(me.mem, me.posted);
    } else {
      ActedOk(me, peer, act, peer.mem);
      ActedOk(me, peer, act, peer.disk);
      var r := Act(me.mem, peer, act);
      GrowsContact(me.mem, r.node);
      PostedGrows(me.mem, r.node, me.posted);
      BehindGrows(me.disk, me.mem);
      GrowsOn(me.disk, me.mem, r.node);
      UnstoredBehind(me.mem, peer, act);
      if r.stored {
        ReleaseBehind(r.node, 0);
      } else {
        BehindOn(me.disk, me.mem, r.node);
      }
    }
  }

  /** Starting again from what was stored. */
  lemma RestartOk(me: Side, peer: Side)
    requires SideOk(me) && AllInStep(me, peer) && PostedOk(me.disk, me.posted)
    ensures SideOk(me.(mem := Restored(me.disk))) && AllInStep(me.(mem := Restored(me.disk)), peer)
  {
    hide Linked, Kept, Logged, P.Inv, Behind, PostedOk, ContactGrows;
    var n := me.disk;
    RestoredBehind(n);
    MarkedKept(n, Restored(n));
    SameLogged(n, Restored(n), me.sent);
    PostedGrows(n, Restored(n), me.posted);
  }

  lemma NodeOkLinked(n: NodeState, sx: Sent)
    requires NodeOk(n, sx)
    ensures Linked(n)
  {
    hide Linked, Kept, Logged;
  }

  lemma GrowsContact(n: NodeState, n': NodeState)
    requires Grows(n, n')
    ensures ContactGrows(n, n')
  {
    hide ContactGrows, TransfersGrow;
  }

  // ----- whole runs -----

  ghost predicate SystemGrows(s: System, s': System) { SideGrows(s.a, s'.a) && SideGrows(s.b, s'.b) }

  lemma NextOk(s: System, s': System)
    requires SystemOk(s) && Next(s, s')
    ensures SystemOk(s') && SystemGrows(s, s')
  {
    hide SideOk, AllInStep, Enabled, Step, Grows;
    var act :| StepsA(s, s', act) || StepsB(s, s', act);
    SameGrows(s.a.disk);
    SameGrows(s.b.disk);
    Turned(s.a, s.b);
    if StepsA(s, s', act) {
      StepOk(s.a, s.b, act);
    } else {
      StepOk(s.b, s.a, act);
      Turned(s'.b, s'.a);
    }
  }

  /** The invariant holds in every state of every run. */
  lemma {:induction false} RunOk(r: seq<System>, k: nat)
    requires IsRun(r) && k < |r|
    ensures SystemOk(r[k])
  {
    hide SystemOk, Next, Init;
    if k == 0 {
      InitOk(r[0]);
    } else {
      RunOk(r, k - 1);
      NextOk(r[k - 1], r[k]);
    }
  }

  lemma SideGrowsOn(s: Side, s': Side, s'': Side)
    requires SideGrows(s, s') && SideGrows(s', s'')
    ensures SideGrows(s, s'')
  {
    hide Grows;
    GrowsOn(s.disk, s'.disk, s''.disk);
  }

  /** What either node stored, sent or published is never lost or changed later in the run. */
  lemma {:induction false} RunGrows(r: seq<System>, j: nat, k: nat)
    requires IsRun(r) && j <= k < |r|
    ensures SystemGrows(r[j], r[k])
    decreases k - j
  {
    hide SystemOk, Next, Init, SideGrows;
    if j == k {
      StillGrows(r[j].a);
      StillGrows(r[j].b);
    } else {
      RunOk(r, k - 1);
      NextOk(r[k - 1], r[k]);
      RunGrows(r, j, k - 1);
      SideGrowsOn(r[j].a, r[k - 1].a, r[k].a);
      SideGrowsOn(r[j].b, r[k - 1].b, r[k].b);
    }
  }

  lemma StillGrows(s: Side)
    ensures SideGrows(s, s)
  {
    hide Grows;
    SameGrows(s.disk);
  }
}
