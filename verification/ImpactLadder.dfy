/** The impact walk against the sum it should amount to: only the buckets with
    liquidity above all earlier prices count, and each costs its liquidity times
    the move of the inverse root, at its start price (src/main.rs:1843-1886). */
module ImpactLadder {
  import opened Numerics
  import opened ImpermanentLoss
  import opened Depth
  import opened Impact
  import opened PoolImpact

  /** The buckets that count: liquidity, and a price above all that count before. */
  function Useful(ladder: seq<LiquidityLevel>, p: real): (useful: seq<LiquidityLevel>)
    ensures Climbs(useful, p)
  {
    if ladder == [] then []
    else if ladder[0].liquidity == 0 || ladder[0].price <= p then Useful(ladder[1..], p)
    else
      var rest := Useful(ladder[1..], ladder[0].price);
      assert ([ladder[0]] + rest)[1..] == rest;
      [ladder[0]] + rest
  }

  /** Positive liquidities and strictly ascending prices above p. */
  predicate Climbs(ladder: seq<LiquidityLevel>, p: real) {
    ladder == [] || (ladder[0].liquidity > 0 && ladder[0].price > p && Climbs(ladder[1..], ladder[0].price))
  }

  /** Dropping all other buckets changes nothing. */
  lemma {:induction false} WalkOfUseful(sqrt: real -> real, ladder: seq<LiquidityLevel>, p: real, size: real)
    requires IsSqrt(sqrt) && p > 0.0
    ensures Walk(sqrt, ladder, p, size) == Walk(sqrt, Useful(ladder, p), p, size)
    decreases |ladder|
  {
    if ladder != [] {
      var b := ladder[0];
      if b.liquidity == 0 || b.price <= p {
        WalkOfUseful(sqrt, ladder[1..], p, size);
      } else {
        var rest := Useful(ladder[1..], b.price);
        assert ([b] + rest)[1..] == rest;
        WalkOfUseful(sqrt, ladder[1..], b.price, size - SegmentCost(sqrt, b.liquidity as real, p, b.price));
      }
    }
  }

  /** Last price of a climbing ladder. */
  function LastPrice(ladder: seq<LiquidityLevel>, p: real): real {
    if ladder == [] then p else ladder[|ladder| - 1].price
  }

  /** Sum over the buckets of l (1/sqrt(start) - 1/sqrt(end)) start, each starting
      where the one before ends. */
  function LadderCost(sqrt: real -> real, ladder: seq<LiquidityLevel>, p: real): real
    requires IsSqrt(sqrt) && p > 0.0 && Climbs(ladder, p)
    decreases |ladder|
  {
    if ladder == [] then 0.0
    else MoveCost(sqrt, ladder[0].liquidity, p, ladder[0].price) + LadderCost(sqrt, ladder[1..], ladder[0].price)
  }

  function MoveCost(sqrt: real -> real, l: nat, p: real, e: real): real
    requires IsSqrt(sqrt) && 0.0 < p <= e
  {
    RootIsPositive(sqrt, p);
    RootIsPositive(sqrt, e);
    l as real * (1.0 / sqrt(p) - 1.0 / sqrt(e)) * p
  }

  /** The same sum up to a price e. */
  function CostUpTo(sqrt: real -> real, ladder: seq<LiquidityLevel>, p: real, e: real): real
    requires IsSqrt(sqrt) && 0.0 < p <= e && Climbs(ladder, p)
    decreases |ladder|
  {
    if ladder == [] then 0.0
    else if e <= ladder[0].price then MoveCost(sqrt, ladder[0].liquidity, p, e)
    else MoveCost(sqrt, ladder[0].liquidity, p, ladder[0].price) + CostUpTo(sqrt, ladder[1..], ladder[0].price, e)
  }

  lemma {:induction false} LastAbove(ladder: seq<LiquidityLevel>, p: real)
    requires Climbs(ladder, p)
    ensures LastPrice(ladder, p) >= p && Top(ladder, p) == LastPrice(ladder, p)
    ensures ladder != [] ==> LastPrice(ladder, p) == LastPrice(ladder[1..], ladder[0].price)
  {
    if ladder != [] {
      LastAbove(ladder[1..], ladder[0].price);
    }
  }

  lemma MoveIsSegment(sqrt: real -> real, l: nat, p: real, e: real)
    requires IsSqrt(sqrt) && 0.0 < p <= e
    ensures MoveCost(sqrt, l, p, e) == SegmentCost(sqrt, l as real, p, e)
  {
    CostIs(sqrt, l as real, p, e);
  }

  lemma {:induction false} CostUpToIs(sqrt: real -> real, ladder: seq<LiquidityLevel>, p: real, e: real)
    requires IsSqrt(sqrt) && 0.0 < p <= e && Climbs(ladder, p)
    ensures CostUpTo(sqrt, ladder, p, e) == CostToReach(sqrt, ladder, p, e)
    decreases |ladder|
  {
    if ladder != [] {
      MoveIsSegment(sqrt, ladder[0].liquidity, p, if e <= ladder[0].price then e else ladder[0].price);
      if e > ladder[0].price {
        CostUpToIs(sqrt, ladder[1..], ladder[0].price, e);
      }
    }
  }

  /** The whole ladder costs what its last price costs. */
  lemma {:induction false} WholeCost(sqrt: real -> real, ladder: seq<LiquidityLevel>, p: real)
    requires IsSqrt(sqrt) && p > 0.0 && Climbs(ladder, p)
    ensures LastPrice(ladder, p) >= p && LadderCost(sqrt, ladder, p) == CostUpTo(sqrt, ladder, p, LastPrice(ladder, p))
    decreases |ladder|
  {
    LastAbove(ladder, p);
    if ladder != [] {
      WholeCost(sqrt, ladder[1..], ladder[0].price);
      LastAbove(ladder[1..], ladder[0].price);
      if LastPrice(ladder, p) == ladder[0].price {
        NothingAbove(ladder[1..], ladder[0].price);
      }
    }
  }

  lemma NothingAbove(ladder: seq<LiquidityLevel>, p: real)
    requires Climbs(ladder, p) && LastPrice(ladder, p) == p
    ensures ladder == []
  {
    if ladder != [] {
      LastAbove(ladder[1..], ladder[0].price);
      LastAbove(ladder, p);
    }
  }

  /** For every ladder, start and size: the walk ends at a finite price, at most the
      last one that counts; the size is the sum up to that price plus the rest; and
      something remains exactly if the size exceeds the whole sum. */
  lemma WalkMeaning(sqrt: real -> real, ladder: seq<LiquidityLevel>, p: real, size: real)
    requires IsSqrt(sqrt) && p > 0.0 && size >= 0.0
    ensures var w, useful := Walk(sqrt, ladder, p, size), Useful(ladder, p);
            && w.price.Some? && p <= w.price.value <= LastPrice(useful, p) && w.remaining >= 0.0
            && size == CostUpTo(sqrt, useful, p, w.price.value) + w.remaining
            && (w.remaining > 0.0 <==> size > LadderCost(sqrt, useful, p))
            && (w.remaining > 0.0 ==> w.price.value == LastPrice(useful, p))
  {
    var useful := Useful(ladder, p);
    WalkOfUseful(sqrt, ladder, p, size);
    LastAbove(useful, p);
    SizeIsCostPlusRest(sqrt, useful, p, size);
    ExhaustedIff(sqrt, useful, p, size);
    CostUpToIs(sqrt, useful, p, Walk(sqrt, useful, p, size).price.value);
    WholeCost(sqrt, useful, p);
    CostUpToIs(sqrt, useful, p, LastPrice(useful, p));
  }

  /** What the command reports, for every ladder: infinity exactly if the size exceeds
      the sum, and otherwise the price up to which the sum is the size, with its
      percentage above the start. */
  lemma ReportMeaning(sqrt: real -> real, ladder: seq<LiquidityLevel>, start: real, size: real,
                      target: Option<real>, pct: Option<real>)
    requires IsSqrt(sqrt) && start > 0.0 && size >= 0.0 && Reports(sqrt, ladder, start, size, target, pct)
    ensures var useful := Useful(ladder, start);
            && (target.None? <==> size > LadderCost(sqrt, useful, start)) && (pct.None? <==> target.None?)
            && (target.Some? ==>
                  && start <= target.value <= LastPrice(useful, start)
                  && CostUpTo(sqrt, useful, start, target.value) == size
                  && pct.value * start == (target.value - start) * 100.0)
  {
    WalkMeaning(sqrt, ladder, start, size);
  }

  /** One bucket of liquidity 1100 from 1 to 1.21 costs 100, so 50 is filled. */
  lemma OneBucketFills(sqrt: real -> real, target: Option<real>, pct: Option<real>)
    requires IsSqrt(sqrt) && Reports(sqrt, [LiquidityLevel(1.21, 1100)], 1.0, 50.0, target, pct)
    ensures target.Some? && 1.0 < target.value < 1.21
  {
    var ladder := [LiquidityLevel(1.21, 1100)];
    RootsOrdered(sqrt(1.0), 1.0, 1.0, 1.0);
    RootsOrdered(sqrt(1.21), 1.1, 1.21, 1.21);
    assert ladder[1..] == [] && Useful(ladder, 1.0) == ladder;
    assert MoveCost(sqrt, 1100, 1.0, 1.21) == 100.0 && MoveCost(sqrt, 1100, 1.0, 1.0) == 0.0;
    ReportMeaning(sqrt, ladder, 1.0, 50.0, target, pct);
  }
}
