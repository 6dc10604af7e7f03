/** The operation history of one contact: what it makes of the two reserves, and the hash
    chain that stands for it in checkpoints. */
module ChannelHistory {
  import opened Wrappers
  import opened PoolPricing
  import opened CanonicalJson

  /** An opaque identifier (a urn:uuid), never empty. */
  datatype Id = Uuid(text: string)

  /** A collision-free hash, kept symbolic: the digest of a text, or of an earlier digest
      followed by a text.  Zero is the value of a digest that was never set. */
  datatype Digest = Zero | OfText(text: string) | OfLink(prev: Digest, text: string)

  /** One committed operation.  Both nodes know which of them paid or adjusted; the channel
      hash does not cover it. */
  datatype Op =
    | Seeded(id: Id, proposerSeed: int, responderSeed: int)
    | Transferred(id: Id, byProposer: bool, src: int, dst: int)
    | Adjusted(id: Id, byProposer: bool, delta: int)

  // ----- reserves as a fold -----

  function Applied(pool: Pool, op: Op): Pool {
    match op
    case Seeded(_, p, r) => Pool(p, r)
    case Transferred(_, byProposer, src, dst) => Moved(pool, byProposer, src, dst)
    case Adjusted(_, byProposer, delta) =>
      if byProposer then Pool(pool.proposerSide + delta, pool.responderSide)
      else Pool(pool.proposerSide, pool.responderSide + delta)
  }

  function Reserves(h: seq<Op>): Pool {
    if h == [] then Pool(0, 0) else Applied(Reserves(h[..|h| - 1]), h[|h| - 1])
  }

  lemma ReservesAppend(h: seq<Op>, op: Op)
    ensures Reserves(h + [op]) == Applied(Reserves(h), op)
  {
    assert (h + [op])[..|h|] == h;
  }

  // ----- the channel root -----

  function OpType(op: Op): string {
    match op
    case Seeded(_, _, _) => "seed"
    case Transferred(_, _, _, _) => "transfer"
    case Adjusted(_, _, _) => "adjust"
  }

  function OpSrc(op: Op): int {
    match op
    case Seeded(_, p, _) => p
    case Transferred(_, _, src, _) => src
    case Adjusted(_, _, delta) => delta
  }

  function OpDst(op: Op): int {
    match op
    case Seeded(_, _, r) => r
    case Transferred(_, _, _, dst) => dst
    case Adjusted(_, _, _) => 0
  }

  function ChannelRoot0(contact: Id): Digest { OfText(contact.text) }

  function ChannelNext(prev: Digest, opType: string, id: Id, src: int, dst: int): Digest {
    OfLink(prev, Canonical(Arr([Str(opType), Str(id.text), Int(src), Int(dst)])))
  }

  function NextRoot(prev: Digest, op: Op): Digest {
    ChannelNext(prev, OpType(op), op.id, OpSrc(op), OpDst(op))
  }

  function RootOf(contact: Id, h: seq<Op>): Digest {
    if h == [] then ChannelRoot0(contact) else NextRoot(RootOf(contact, h[..|h| - 1]), h[|h| - 1])
  }

  lemma RootAppend(contact: Id, h: seq<Op>, op: Op)
    ensures RootOf(contact, h + [op]) == NextRoot(RootOf(contact, h), op)
  {
    assert (h + [op])[..|h|] == h;
  }

  // ----- what equal roots mean -----

  /** Two operations that look alike on the wire: same type, id and amounts. */
  predicate SameTuple(a: Op, b: Op) {
    OpType(a) == OpType(b) && a.id == b.id && OpSrc(a) == OpSrc(b) && OpDst(a) == OpDst(b)
  }

  ghost predicate SameTuples(h: seq<Op>, g: seq<Op>) {
    |h| == |g| && forall i :: 0 <= i < |h| ==> SameTuple(h[i], g[i])
  }

  lemma LinkUnique(p: Digest, q: Digest, a: Op, b: Op)
    ensures NextRoot(p, a) == NextRoot(q, b) <==> p == q && SameTuple(a, b)
  {
    var v := Arr([Str(OpType(a)), Str(a.id.text), Int(OpSrc(a)), Int(OpDst(a))]);
    var w := Arr([Str(OpType(b)), Str(b.id.text), Int(OpSrc(b)), Int(OpDst(b))]);
    CanonicalInjective(v, w);
    if v == w {
      assert v.items[0] == w.items[0] && v.items[1] == w.items[1];
      assert v.items[2] == w.items[2] && v.items[3] == w.items[3];
    }
  }

  /** Equal roots hold exactly when contact and histories agree in every tuple. */
  lemma {:induction false} RootsAgree(c: Id, d: Id, h: seq<Op>, g: seq<Op>)
    ensures RootOf(c, h) == RootOf(d, g) <==> c == d && SameTuples(h, g)
    decreases |h|
  {
    if h != [] && g != [] {
      var h', g' := h[..|h| - 1], g[..|g| - 1];
      LinkUnique(RootOf(c, h'), RootOf(d, g'), h[|h| - 1], g[|g| - 1]);
      RootsAgree(c, d, h', g');
      if SameTuples(h', g') && SameTuple(h[|h| - 1], g[|g| - 1]) {
        forall i | 0 <= i < |h| ensures SameTuple(h[i], g[i]) {
          if i < |h| - 1 { assert SameTuple(h'[i], g'[i]); }
        }
      }
      if SameTuples(h, g) {
        forall i | 0 <= i < |h'| ensures SameTuple(h'[i], g'[i]) {
          assert SameTuple(h[i], g[i]);
        }
      }
    }
  }

  /** Equal roots alone do not give equal reserves: the hash leaves out which side paid. */
  lemma EqualRootsUnequalReserves(c: Id, x: Id)
    ensures var h := [Seeded(c, 100, 100), Transferred(x, true, 10, 9)];
            var g := [Seeded(c, 100, 100), Transferred(x, false, 10, 9)];
            RootOf(c, h) == RootOf(c, g) && Reserves(h) != Reserves(g)
  {
    var h := [Seeded(c, 100, 100), Transferred(x, true, 10, 9)];
    var g := [Seeded(c, 100, 100), Transferred(x, false, 10, 9)];
    RootsAgree(c, c, h, g);
    assert h == [] + [h[0]] + [h[1]] && g == [] + [g[0]] + [g[1]];
    ReservesAppend([], h[0]);
    ReservesAppend([h[0]], h[1]);
    ReservesAppend([g[0]], g[1]);
    assert [] + [h[0]] == [h[0]] && [] + [g[0]] == [g[0]];
  }

  predicate SameSide(a: Op, b: Op) {
    (a.Transferred? && b.Transferred? ==> a.byProposer == b.byProposer)
    && (a.Adjusted? && b.Adjusted? ==> a.byProposer == b.byProposer)
  }

  /** What every committed operation satisfies: it moves something. */
  predicate Moves(op: Op) {
    (op.Transferred? ==> op.src > 0 && op.dst > 0) && (op.Adjusted? ==> op.delta != 0)
  }

  lemma TupleDecides(a: Op, b: Op)
    requires SameTuple(a, b)
    ensures a.Seeded? <==> b.Seeded?
    ensures a.Transferred? <==> b.Transferred?
    ensures a.Adjusted? <==> b.Adjusted?
    ensures a == b <==> SameSide(a, b)
  {
    assert OpType(a)[0] == OpType(b)[0];
  }

  ghost predicate SameSides(h: seq<Op>, g: seq<Op>) {
    |h| == |g| && forall i :: 0 <= i < |h| ==> SameSide(h[i], g[i])
  }

  ghost predicate SameReservesThroughout(h: seq<Op>, g: seq<Op>) {
    |h| == |g| && forall n :: 0 <= n <= |h| ==> Reserves(h[..n]) == Reserves(g[..n])
  }

  /** Under equal roots the reserves agree after every operation exactly when both histories
      charge every operation to the same side. */
  lemma EqualRootsEqualReserves(c: Id, h: seq<Op>, g: seq<Op>)
    requires forall i :: 0 <= i < |h| ==> Moves(h[i])
    ensures RootOf(c, h) == RootOf(c, g) ==> (SameReservesThroughout(h, g) <==> SameSides(h, g))
  {
    if RootOf(c, h) == RootOf(c, g) {
      EqualRootsEqualTuples(c, h, g);
      EqualTuplesEqualReserves(h, g);
    }
  }

  lemma EqualRootsEqualTuples(c: Id, h: seq<Op>, g: seq<Op>)
    requires RootOf(c, h) == RootOf(c, g)
    ensures SameTuples(h, g)
  {
    RootsAgree(c, c, h, g);
  }

  lemma EqualTuplesEqualReserves(h: seq<Op>, g: seq<Op>)
    requires SameTuples(h, g)
    requires forall i :: 0 <= i < |h| ==> Moves(h[i])
    ensures SameReservesThroughout(h, g) <==> SameSides(h, g)
  {
    if SameSides(h, g) {
      SameSidesSameHistory(h, g);
    }
    if SameReservesThroughout(h, g) {
      forall i | 0 <= i < |h| ensures SameSide(h[i], g[i]) {
        if !SameSide(h[i], g[i]) {
          ReservesPart(h, g, i);
        }
      }
    }
  }

  lemma SameSidesSameHistory(h: seq<Op>, g: seq<Op>)
    requires SameTuples(h, g) && SameSides(h, g)
    ensures h == g
  {
    forall i | 0 <= i < |h| ensures h[i] == g[i] {
      TupleDecides(h[i], g[i]);
    }
  }

  lemma ReservesPart(h: seq<Op>, g: seq<Op>, i: nat)
    requires i < |h| == |g| && SameTuple(h[i], g[i]) && !SameSide(h[i], g[i]) && Moves(h[i])
    ensures Reserves(h[..i]) != Reserves(g[..i]) || Reserves(h[..i + 1]) != Reserves(g[..i + 1])
  {
    assert h[..i + 1] == h[..i] + [h[i]] && g[..i + 1] == g[..i] + [g[i]];
    ReservesAppend(h[..i], h[i]);
    ReservesAppend(g[..i], g[i]);
    OtherSideDiffers(Reserves(h[..i]), h[i], g[i]);
  }

  lemma OtherSideDiffers(p: Pool, a: Op, b: Op)
    requires SameTuple(a, b) && !SameSide(a, b) && Moves(a)
    ensures Applied(p, a) != Applied(p, b)
  {
    TupleDecides(a, b);
  }
}
