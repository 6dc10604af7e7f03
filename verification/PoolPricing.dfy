/** The constant-product pool of one contact: the price of a single transfer, and what
    that price means over whole sequences of trades.  Amounts are mathematical integers. */
module PoolPricing {
  import opened Wrappers

  datatype PriceError = NonPositive | EmptyPool | Dust

  /** floor(rDst * src / (rSrc + src)).  The contract says what that number is for: the payout
      leaves the destination reserve positive, keeps the product of the two reserves from
      falling, and is the largest payout that does. */
  function PoolPrice(rSrc: int, rDst: int, src: int): (r: Result<int, PriceError>)
    ensures r == Failure(NonPositive) <==> src <= 0
    ensures r == Failure(EmptyPool) <==> src > 0 && (rSrc <= 0 || rDst <= 0)
    ensures r == Failure(Dust) <==>
            src > 0 && rSrc > 0 && rDst > 0 && (rSrc + src) * (rDst - 1) < rSrc * rDst
    ensures r.Success? ==> 0 < r.value < rDst
    ensures r.Success? ==> (rSrc + src) * (rDst - r.value) >= rSrc * rDst
    ensures r.Success? ==> (rSrc + src) * (rDst - r.value - 1) < rSrc * rDst
  {
    if src <= 0 then Failure(NonPositive)
    else if rSrc <= 0 || rDst <= 0 then Failure(EmptyPool)
    else
      var dst := rDst * src / (rSrc + src);
      FloorOfShare(rSrc, rDst, src);
      if dst == 0 then Failure(Dust) else Success(dst)
  }

  lemma FloorOfShare(rSrc: int, rDst: int, src: int)
    requires src > 0 && rSrc > 0 && rDst > 0
    ensures var dst := rDst * src / (rSrc + src);
            && 0 <= dst < rDst
            && (rSrc + src) * (rDst - dst) >= rSrc * rDst
            && (rSrc + src) * (rDst - dst - 1) < rSrc * rDst
  {
    var num, den := rDst * src, rSrc + src;
    Quotient(num, den);
    ShareBounds(rSrc, rDst, src, num / den);
  }

  lemma Quotient(num: int, den: int)
    requires den > 0
    ensures den * (num / den) <= num < den * (num / den) + den
  {
    assert num == den * (num / den) + num % den;
  }

  lemma ShareBounds(rSrc: int, rDst: int, src: int, dst: int)
    requires src > 0 && rSrc > 0 && rDst > 0
    requires (rSrc + src) * dst <= rDst * src < (rSrc + src) * dst + (rSrc + src)
    ensures 0 <= dst < rDst
    ensures (rSrc + src) * (rDst - dst) >= rSrc * rDst
    ensures (rSrc + src) * (rDst - dst - 1) < rSrc * rDst
  {
    var den := rSrc + src;
    assert den * rDst == rSrc * rDst + rDst * src;
    assert den * (rDst - dst) == den * rDst - den * dst;
    assert den * (rDst - dst - 1) == den * (rDst - dst) - den;
    MulPositive(rSrc, rDst);
    MulPositive(rDst, src);
    if dst < 0 {
      MulAtMost(den, dst, -1);
    }
    if dst >= rDst {
      MulAtMost(den, rDst, dst);
    }
  }

  lemma MulPositive(a: int, b: int)
    requires a > 0 && b > 0
    ensures a * b > 0
  {
  }

  lemma MulAtMost(a: int, b: int, c: int)
    requires a >= 0 && b <= c
    ensures a * b <= a * c
  {
  }

  // ----- sequences of trades -----

  /** The two reserves of a contact: what the proposing node holds for the responder, and
      what the responding node holds for the proposer. */
  datatype Pool = Pool(proposerSide: int, responderSide: int)
  {
    predicate Positive() { proposerSide > 0 && responderSide > 0 }
    function Product(): int { proposerSide * responderSide }
  }

  /** A committed transfer moves src in on the payer's side and dst out on the payee's. */
  function Moved(pool: Pool, byProposer: bool, src: int, dst: int): Pool {
    if byProposer then Pool(pool.proposerSide + src, pool.responderSide - dst)
    else Pool(pool.proposerSide - dst, pool.responderSide + src)
  }

  function PriceFor(pool: Pool, byProposer: bool, src: int): Result<int, PriceError> {
    if byProposer then PoolPrice(pool.proposerSide, pool.responderSide, src)
    else PoolPrice(pool.responderSide, pool.proposerSide, src)
  }

  datatype Trade = Trade(byProposer: bool, src: int)

  /** One attempted trade: an unpriceable one is refused and leaves the pool as it was. */
  function Attempt(pool: Pool, t: Trade): Pool {
    match PriceFor(pool, t.byProposer, t.src)
    case Success(dst) => Moved(pool, t.byProposer, t.src, dst)
    case Failure(_) => pool
  }

  function AttemptAll(pool: Pool, ts: seq<Trade>): Pool
    decreases |ts|
  {
    if ts == [] then pool else AttemptAll(Attempt(pool, ts[0]), ts[1..])
  }

  lemma AttemptKeeps(pool: Pool, t: Trade)
    requires pool.Positive()
    ensures Attempt(pool, t).Positive()
    ensures Attempt(pool, t).Product() >= pool.Product()
  {
    match PriceFor(pool, t.byProposer, t.src)
    case Failure(_) =>
    case Success(dst) =>
      assert pool.Product() == pool.responderSide * pool.proposerSide;
      var after := Attempt(pool, t);
      assert after.Product() == after.responderSide * after.proposerSide;
  }

  /** Over any trades in both directions the reserves stay positive and their product never falls. */
  lemma {:induction false} ProductNeverFalls(pool: Pool, ts: seq<Trade>)
    requires pool.Positive()
    ensures AttemptAll(pool, ts).Positive()
    ensures AttemptAll(pool, ts).Product() >= pool.Product()
    decreases |ts|
  {
    if ts == [] {
    } else {
      AttemptKeeps(pool, ts[0]);
      ProductNeverFalls(Attempt(pool, ts[0]), ts[1..]);
    }
  }

  /** No cycle of trades extracts value: if one reserve ends no higher than it began,
      the other ends no lower. */
  lemma NoFreeCycle(pool: Pool, ts: seq<Trade>)
    requires pool.Positive()
    ensures var end := AttemptAll(pool, ts);
            && (end.proposerSide <= pool.proposerSide ==> end.responderSide >= pool.responderSide)
            && (end.responderSide <= pool.responderSide ==> end.proposerSide >= pool.proposerSide)
  {
    ProductNeverFalls(pool, ts);
    var end := AttemptAll(pool, ts);
    ProductBound(pool.proposerSide, pool.responderSide, end.proposerSide, end.responderSide);
    ProductBound(pool.responderSide, pool.proposerSide, end.responderSide, end.proposerSide);
  }

  lemma ProductBound(a: int, b: int, c: int, d: int)
    requires a > 0 && b > 0 && c > 0 && d > 0
    requires c * d >= a * b
    ensures c <= a ==> d >= b
  {
    if c <= a && d < b {
      MulAtMost(d, c, a);
      MulStrict(a, d, b);
      assert false;
    }
  }

  lemma MulStrict(a: int, b: int, c: int)
    requires a > 0 && b < c
    ensures a * b < a * c
  {
  }

  // ----- splitting one payment -----

  function Sum(xs: seq<int>): int {
    if xs == [] then 0 else xs[0] + Sum(xs[1..])
  }

  function Payout(r: Result<int, PriceError>): int {
    match r case Success(dst) => dst case Failure(_) => 0
  }

  /** What a series of payments in one direction pays in total (refused ones pay nothing). */
  function TotalPayout(pool: Pool, byProposer: bool, srcs: seq<int>): int
    decreases |srcs|
  {
    if srcs == [] then 0
    else Payout(PriceFor(pool, byProposer, srcs[0]))
         + TotalPayout(Attempt(pool, Trade(byProposer, srcs[0])), byProposer, srcs[1..])
  }

  function SourceSide(pool: Pool, byProposer: bool): int {
    if byProposer then pool.proposerSide else pool.responderSide
  }

  function PayoutSide(pool: Pool, byProposer: bool): int {
    if byProposer then pool.responderSide else pool.proposerSide
  }

  function Same(byProposer: bool, srcs: seq<int>): seq<Trade> {
    seq(|srcs|, i requires 0 <= i < |srcs| => Trade(byProposer, srcs[i]))
  }

  lemma {:induction false} SeriesBalance(pool: Pool, byProposer: bool, srcs: seq<int>)
    requires pool.Positive() && forall i :: 0 <= i < |srcs| ==> srcs[i] > 0
    ensures var end := AttemptAll(pool, Same(byProposer, srcs));
            && SourceSide(end, byProposer) <= SourceSide(pool, byProposer) + Sum(srcs)
            && PayoutSide(end, byProposer) == PayoutSide(pool, byProposer) - TotalPayout(pool, byProposer, srcs)
    decreases |srcs|
  {
    if srcs == [] {
    } else {
      var t := Trade(byProposer, srcs[0]);
      AttemptKeeps(pool, t);
      assert Same(byProposer, srcs)[0] == t;
      assert Same(byProposer, srcs)[1..] == Same(byProposer, srcs[1..]);
      SeriesBalance(Attempt(pool, t), byProposer, srcs[1..]);
    }
  }

  lemma LargestPayout(rSrc: int, rDst: int, src: int, d: int)
    requires rSrc > 0 && rDst > 0 && src > 0
    requires (rSrc + src) * (rDst - d) >= rSrc * rDst
    ensures d <= Payout(PoolPrice(rSrc, rDst, src))
  {
    var best := Payout(PoolPrice(rSrc, rDst, src));
    if d > best {
      MulAtMost(rSrc + src, rDst - d, rDst - best - 1);
      assert false;
    }
  }

  lemma {:induction false} SumPositive(xs: seq<int>)
    requires xs != [] && forall i :: 0 <= i < |xs| ==> xs[i] > 0
    ensures Sum(xs) > 0
  {
    if |xs| > 1 {
      SumPositive(xs[1..]);
    } else {
      assert xs[1..] == [];
    }
  }

  /** Splitting one payment into any series of positive payments never pays more in total. */
  lemma SplittingNeverPaysMore(pool: Pool, byProposer: bool, srcs: seq<int>)
    requires pool.Positive() && srcs != [] && forall i :: 0 <= i < |srcs| ==> srcs[i] > 0
    ensures TotalPayout(pool, byProposer, srcs) <= Payout(PriceFor(pool, byProposer, Sum(srcs)))
  {
    var end := AttemptAll(pool, Same(byProposer, srcs));
    ProductNeverFalls(pool, Same(byProposer, srcs));
    SeriesBalance(pool, byProposer, srcs);
    SumPositive(srcs);
    SeriesBound(SourceSide(pool, byProposer), PayoutSide(pool, byProposer), Sum(srcs),
                SourceSide(end, byProposer), TotalPayout(pool, byProposer, srcs)) by {
      ProductOfSides(pool, byProposer);
      ProductOfSides(end, byProposer);
    }
  }

  lemma ProductOfSides(pool: Pool, byProposer: bool)
    ensures SourceSide(pool, byProposer) * PayoutSide(pool, byProposer) == pool.Product()
  {
  }

  lemma SeriesBound(rSrc: int, rDst: int, src: int, endSrc: int, paid: int)
    requires rSrc > 0 && rDst > 0 && src > 0
    requires endSrc <= rSrc + src && rDst - paid > 0
    requires endSrc * (rDst - paid) >= rSrc * rDst
    ensures paid <= Payout(PoolPrice(rSrc, rDst, src))
  {
    MulAtMost(rDst - paid, endSrc, rSrc + src);
    LargestPayout(rSrc, rDst, src, paid);
  }
}
