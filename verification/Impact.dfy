/** The bucket walk of the impact command (src/main.rs:1843-1886): how far a buy
    of a given size pushes the price through a ladder of liquidity levels. */
module Impact {
  import opened Numerics
  import opened ImpermanentLoss
  import opened Depth

  /** Price and unspent size after the walk; no price stands for infinity. */
  datatype Walked = Walked(price: Option<real>, remaining: real)

  /** The walk steps over empty buckets and buckets not above the price. */
  predicate Passable(b: LiquidityLevel, p: real) {
    b.liquidity == 0 || b.price <= p
  }

  lemma RootIsPositive(sqrt: real -> real, p: real)
    requires IsSqrt(sqrt) && p > 0.0
    ensures sqrt(p) > 0.0 && IsRoot(sqrt(p), p)
  {
    RootsOrdered(0.0, sqrt(p), 0.0, p);
  }

  /** Cost of moving the price from p to e through liquidity l. */
  function SegmentCost(sqrt: real -> real, l: real, p: real, e: real): real
    requires IsSqrt(sqrt) && p > 0.0 && e > 0.0
  {
    RootIsPositive(sqrt, p);
    RootIsPositive(sqrt, e);
    l * AbsReal(1.0 / sqrt(p) - 1.0 / sqrt(e)) * p
  }

  /** Price after spending `remaining` inside one bucket. */
  function EndInside(sqrt: real -> real, l: real, p: real, remaining: real): Option<real>
    requires IsSqrt(sqrt) && p > 0.0 && l > 0.0
  {
    RootIsPositive(sqrt, p);
    var inverse := 1.0 / sqrt(p) - remaining / p / l;
    if inverse > 0.0 then Some(InverseSquare(inverse)) else None
  }

  function InverseSquare(x: real): (r: real)
    requires x > 0.0
    ensures r > 0.0
  {
    SignOfFactor(x, x);
    var r := 1.0 / (x * x);
    SignOfFactor(r, x * x);
    r
  }

  /** The loop as a recursion over the ladder. */
  function Walk(sqrt: real -> real, ladder: seq<LiquidityLevel>, p: real, remaining: real): Walked
    requires IsSqrt(sqrt) && p > 0.0
    decreases |ladder|
  {
    if ladder == [] then Walked(Some(p), remaining)
    else if Passable(ladder[0], p) then Walk(sqrt, ladder[1..], p, remaining)
    else
      var l := ladder[0].liquidity as real;
      var full := SegmentCost(sqrt, l, p, ladder[0].price);
      if remaining <= full then Walked(EndInside(sqrt, l, p, remaining), 0.0)
      else Walk(sqrt, ladder[1..], ladder[0].price, remaining - full)
  }

  /** The loop over the buckets. */
  method WalkBuckets(sqrt: real -> real, ladder: seq<LiquidityLevel>, start: real, size: real)
    returns (finalPrice: Option<real>, remaining: real)
    requires IsSqrt(sqrt) && start > 0.0
    ensures Walked(finalPrice, remaining) == Walk(sqrt, ladder, start, size)
  {
    remaining := size;
    var price := start;
    for i := 0 to |ladder|
      invariant price > 0.0
      invariant Walk(sqrt, ladder, start, size) == Walk(sqrt, ladder[i..], price, remaining)
    {
      var bucket := ladder[i];
      assert ladder[i..][0] == bucket && ladder[i..][1..] == ladder[i + 1..];
      if Passable(bucket, price) {
        continue;
      }
      var l := bucket.liquidity as real;
      var full := SegmentCost(sqrt, l, price, bucket.price);
      if remaining <= full {
        return EndInside(sqrt, l, price, remaining), 0.0;
      }
      remaining := remaining - full;
      price := bucket.price;
    }
    finalPrice := Some(price);
  }

  lemma PercentIsRatio(x: real, m: real)
    requires m > 0.0
    ensures x / m * 100.0 * m == x * 100.0
  {
    assert x / m * m == x;
  }

  /** The reported target price and percentage; None where infinity is reported. */
  method EstimateImpact(sqrt: real -> real, ladder: seq<LiquidityLevel>, start: real, size: real)
    returns (target: Option<real>, pct: Option<real>)
    requires IsSqrt(sqrt) && start > 0.0
    ensures var w := Walk(sqrt, ladder, start, size);
            && target == (if w.remaining > 0.0 then None else w.price)
            && (target.Some? <==> pct.Some?)
            && (target.Some? ==> pct.value * start == (target.value - start) * 100.0)
  {
    var finalPrice, remaining := WalkBuckets(sqrt, ladder, start, size);
    if remaining > 0.0 || finalPrice.None? {
      return None, None;
    }
    PercentIsRatio(finalPrice.value - start, start);
    target, pct := finalPrice, Some((finalPrice.value - start) / start * 100.0);
  }

  // ---------------------------------------------------------------------
  // One bucket
  // ---------------------------------------------------------------------

  lemma InverseSquareOrder(v: real, w: real)
    requires 0.0 < v <= w
    ensures InverseSquare(w) <= InverseSquare(v)
    ensures v < w ==> InverseSquare(w) < InverseSquare(v)
  {
    SquareOrder(v, w);
    SignOfFactor(v, v);
    SignOfFactor(w, w);
    Reciprocal(v * v, w * w);
  }

  lemma RootOfInverseSquare(sqrt: real -> real, v: real)
    requires IsSqrt(sqrt) && v > 0.0
    ensures 1.0 / sqrt(InverseSquare(v)) == v
  {
    var f := InverseSquare(v);
    var r := sqrt(f);
    RootIsPositive(sqrt, f);
    SignOfFactor(v, v);
    assert f * (v * v) == 1.0;
    SignOfFactor(r, v);
    assert (r * v) * (r * v) == (r * r) * (v * v);
    SquareOrder(r * v, 1.0);
  }

  lemma InverseSquareOfRoot(sqrt: real -> real, p: real)
    requires IsSqrt(sqrt) && p > 0.0
    ensures 1.0 / sqrt(p) > 0.0 && InverseSquare(1.0 / sqrt(p)) == p
  {
    RootIsPositive(sqrt, p);
    var s := sqrt(p);
    var u := 1.0 / s;
    assert u * s == 1.0;
    SignOfFactor(u, s);
    SignOfFactor(u, u);
    assert p * (u * u) == (s * u) * (s * u);
  }

  /** Inverse roots fall as prices rise. */
  lemma InverseRootsOrdered(sqrt: real -> real, p: real, e: real)
    requires IsSqrt(sqrt) && 0.0 < p <= e
    ensures sqrt(p) > 0.0 && sqrt(e) > 0.0 && 0.0 < 1.0 / sqrt(e) <= 1.0 / sqrt(p)
    ensures p < e ==> 1.0 / sqrt(e) < 1.0 / sqrt(p)
  {
    RootIsPositive(sqrt, p);
    RootIsPositive(sqrt, e);
    RootsOrdered(sqrt(p), sqrt(e), p, e);
    Reciprocal(sqrt(p), sqrt(e));
    InverseSquareOfRoot(sqrt, e);
  }

  /** Spending r moves the inverse root down by r / p / l. */
  lemma SpendInBucket(l: real, p: real, d: real, r: real)
    requires l > 0.0 && p > 0.0
    ensures l * (r / p / l) * p == r
    ensures r <= l * d * p <==> r / p / l <= d
    ensures r == l * d * p ==> r / p / l == d
    ensures 0.0 <= r <==> 0.0 <= r / p / l
  {
    var a := r / p;
    var b := a / l;
    assert a * p == r && b * l == a;
    SignOfFactor(d - b, l);
    SignOfFactor((d - b) * l, p);
    assert (d - b) * l * p == l * d * p - r;
    SignOfFactor(b, l);
    SignOfFactor(a, p);
  }

  /** A trade that ends inside a bucket ends between that step's two prices, so
      the infinity branch is unreachable, and costs exactly what was left. */
  lemma InsideBucket(sqrt: real -> real, l: real, p: real, e: real, r: real)
    requires IsSqrt(sqrt) && l > 0.0 && 0.0 < p < e && 0.0 <= r <= SegmentCost(sqrt, l, p, e)
    ensures var end := EndInside(sqrt, l, p, r);
            end.Some? && p <= end.value <= e && SegmentCost(sqrt, l, p, end.value) == r
  {
    InverseRootsOrdered(sqrt, p, e);
    var u, w := 1.0 / sqrt(p), 1.0 / sqrt(e);
    SpendInBucket(l, p, u - w, r);
    var v := u - r / p / l;
    InverseSquareOrder(w, v);
    InverseSquareOrder(v, u);
    InverseSquareOfRoot(sqrt, p);
    InverseSquareOfRoot(sqrt, e);
    RootOfInverseSquare(sqrt, v);
  }

  lemma CostBetween(l: real, p: real, u: real, v: real, w: real, c: real)
    requires l > 0.0 && p > 0.0 && w <= v <= u && c == l * (u - v) * p
    ensures 0.0 <= c <= l * (u - w) * p && c / p / l == u - v
    ensures v < u ==> c > 0.0
  {
    SpendInBucket(l, p, u - v, c);
    SpendInBucket(l, p, u - w, c);
    SpendInBucket(l, p, 0.0, c);
  }

  lemma CostIs(sqrt: real -> real, l: real, p: real, t: real)
    requires IsSqrt(sqrt) && 0.0 < p <= t
    ensures sqrt(p) > 0.0 && sqrt(t) > 0.0
    ensures SegmentCost(sqrt, l, p, t) == l * (1.0 / sqrt(p) - 1.0 / sqrt(t)) * p
  {
    InverseRootsOrdered(sqrt, p, t);
  }

  lemma EndFromInverse(sqrt: real -> real, l: real, p: real, c: real, t: real)
    requires IsSqrt(sqrt) && l > 0.0 && p > 0.0 && t > 0.0 && sqrt(p) > 0.0 && sqrt(t) > 0.0
    requires c / p / l == 1.0 / sqrt(p) - 1.0 / sqrt(t)
    ensures EndInside(sqrt, l, p, c) == Some(t)
  {
    InverseSquareOfRoot(sqrt, t);
  }

  /** The cost of reaching a price inside the bucket is within the full cost,
      and spending it gets there. */
  lemma CostInside(sqrt: real -> real, l: real, p: real, e: real, t: real)
    requires IsSqrt(sqrt) && l > 0.0 && 0.0 < p <= t <= e
    ensures 0.0 <= SegmentCost(sqrt, l, p, t) <= SegmentCost(sqrt, l, p, e)
    ensures EndInside(sqrt, l, p, SegmentCost(sqrt, l, p, t)) == Some(t)
    ensures p < t ==> SegmentCost(sqrt, l, p, t) > 0.0
  {
    InverseRootsOrdered(sqrt, p, t);
    InverseRootsOrdered(sqrt, t, e);
    CostIs(sqrt, l, p, t);
    CostIs(sqrt, l, p, e);
    var c := SegmentCost(sqrt, l, p, t);
    CostBetween(l, p, 1.0 / sqrt(p), 1.0 / sqrt(t), 1.0 / sqrt(e), c);
    EndFromInverse(sqrt, l, p, c, t);
  }

  // ---------------------------------------------------------------------
  // The whole ladder
  // ---------------------------------------------------------------------

  /** Highest price the ladder can take the walk to. */
  function Top(ladder: seq<LiquidityLevel>, p: real): real {
    if ladder == [] then p
    else Top(ladder[1..], if Passable(ladder[0], p) then p else ladder[0].price)
  }

  lemma {:induction false} TopIsAbove(ladder: seq<LiquidityLevel>, p: real)
    ensures Top(ladder, p) >= p
    decreases |ladder|
  {
    if ladder != [] {
      TopIsAbove(ladder[1..], if Passable(ladder[0], p) then p else ladder[0].price);
    }
  }

  /** The other direction: what it costs to push the price from p to t. */
  function CostToReach(sqrt: real -> real, ladder: seq<LiquidityLevel>, p: real, t: real): real
    requires IsSqrt(sqrt) && 0.0 < p <= t
    decreases |ladder|
  {
    if ladder == [] then 0.0
    else if Passable(ladder[0], p) then CostToReach(sqrt, ladder[1..], p, t)
    else
      var l, e := ladder[0].liquidity as real, ladder[0].price;
      if t <= e then SegmentCost(sqrt, l, p, t)
      else SegmentCost(sqrt, l, p, e) + CostToReach(sqrt, ladder[1..], e, t)
  }

  /** For every ladder and every size: the walk ends at a finite price between
      start and top, the size is what reaching that price costs plus the rest,
      and something remains only at the top. */
  lemma {:induction false} SizeIsCostPlusRest(sqrt: real -> real, ladder: seq<LiquidityLevel>, p: real, size: real)
    requires IsSqrt(sqrt) && p > 0.0 && size >= 0.0
    ensures var w := Walk(sqrt, ladder, p, size);
            && w.price.Some? && p <= w.price.value <= Top(ladder, p) && w.remaining >= 0.0
            && size == CostToReach(sqrt, ladder, p, w.price.value) + w.remaining
            && (w.remaining > 0.0 ==> w.price.value == Top(ladder, p))
    decreases |ladder|
  {
    if ladder != [] {
      var l, e := ladder[0].liquidity as real, ladder[0].price;
      if Passable(ladder[0], p) {
        SizeIsCostPlusRest(sqrt, ladder[1..], p, size);
      } else {
        CostInside(sqrt, l, p, e, e);
        TopIsAbove(ladder[1..], e);
        if size <= SegmentCost(sqrt, l, p, e) {
          InsideBucket(sqrt, l, p, e, size);
        } else {
          SizeIsCostPlusRest(sqrt, ladder[1..], e, size - SegmentCost(sqrt, l, p, e));
          NoCostAtStart(sqrt, ladder[1..], e);
        }
      }
    }
  }

  lemma {:induction false} NoCostAtStart(sqrt: real -> real, ladder: seq<LiquidityLevel>, p: real)
    requires IsSqrt(sqrt) && p > 0.0
    ensures CostToReach(sqrt, ladder, p, p) == 0.0
    decreases |ladder|
  {
    if ladder != [] {
      NoCostAtStart(sqrt, ladder[1..], p);
      RootIsPositive(sqrt, p);
    }
  }

  /** Reaching a higher price within the ladder costs strictly more. */
  lemma {:induction false} CostIsIncreasing(sqrt: real -> real, ladder: seq<LiquidityLevel>, p: real, t: real, u: real)
    requires IsSqrt(sqrt) && 0.0 < p <= t < u <= Top(ladder, p)
    ensures 0.0 <= CostToReach(sqrt, ladder, p, t) < CostToReach(sqrt, ladder, p, u)
    decreases |ladder|
  {
    var l, e := ladder[0].liquidity as real, ladder[0].price;
    if Passable(ladder[0], p) {
      CostIsIncreasing(sqrt, ladder[1..], p, t, u);
    } else if u <= e {
      CostInside(sqrt, l, p, u, t);
      CostIsStrict(sqrt, l, p, t, u);
    } else if t <= e {
      CostInside(sqrt, l, p, e, t);
      CostIsIncreasing(sqrt, ladder[1..], e, e, u);
    } else {
      CostInside(sqrt, l, p, e, e);
      CostIsIncreasing(sqrt, ladder[1..], e, t, u);
    }
  }

  lemma CostIsStrict(sqrt: real -> real, l: real, p: real, t: real, u: real)
    requires IsSqrt(sqrt) && l > 0.0 && 0.0 < p <= t < u
    ensures SegmentCost(sqrt, l, p, t) < SegmentCost(sqrt, l, p, u)
  {
    CostInside(sqrt, l, p, u, t);
    CostInside(sqrt, l, p, u, u);
  }

  /** Spending exactly what a reachable price costs reaches it with nothing left. */
  lemma WalkInvertsCost(sqrt: real -> real, ladder: seq<LiquidityLevel>, p: real, t: real)
    requires IsSqrt(sqrt) && 0.0 < p <= t <= Top(ladder, p)
    ensures CostToReach(sqrt, ladder, p, t) >= 0.0
    ensures Walk(sqrt, ladder, p, CostToReach(sqrt, ladder, p, t)) == Walked(Some(t), 0.0)
  {
    NoCostAtStart(sqrt, ladder, p);
    if p < t {
      CostIsIncreasing(sqrt, ladder, p, p, t);
    }
    var size := CostToReach(sqrt, ladder, p, t);
    SizeIsCostPlusRest(sqrt, ladder, p, size);
    var end := Walk(sqrt, ladder, p, size).price.value;
    if end < t {
      CostIsIncreasing(sqrt, ladder, p, end, t);
    } else if t < end {
      CostIsIncreasing(sqrt, ladder, p, t, end);
    }
  }

  /** A larger size never ends lower, and ends strictly higher while liquidity
      lasts. */
  lemma LargerSizeEndsHigher(sqrt: real -> real, ladder: seq<LiquidityLevel>, p: real, small: real, large: real)
    requires IsSqrt(sqrt) && p > 0.0 && 0.0 <= small < large
    ensures var a := Walk(sqrt, ladder, p, small);
            var b := Walk(sqrt, ladder, p, large);
            && a.price.Some? && b.price.Some? && a.price.value <= b.price.value
            && (b.remaining == 0.0 ==> a.price.value < b.price.value)
  {
    SizeIsCostPlusRest(sqrt, ladder, p, small);
    SizeIsCostPlusRest(sqrt, ladder, p, large);
    var a := Walk(sqrt, ladder, p, small).price.value;
    var b := Walk(sqrt, ladder, p, large).price.value;
    if b < a {
      CostIsIncreasing(sqrt, ladder, p, b, a);
    }
  }

  /** The command reports infinity exactly when the size exceeds what the whole
      ladder costs. */
  lemma ExhaustedIff(sqrt: real -> real, ladder: seq<LiquidityLevel>, p: real, size: real)
    requires IsSqrt(sqrt) && p > 0.0 && size >= 0.0
    ensures Top(ladder, p) >= p
    ensures Walk(sqrt, ladder, p, size).remaining > 0.0 <==> size > CostToReach(sqrt, ladder, p, Top(ladder, p))
  {
    TopIsAbove(ladder, p);
    SizeIsCostPlusRest(sqrt, ladder, p, size);
    var end := Walk(sqrt, ladder, p, size).price.value;
    if end < Top(ladder, p) {
      CostIsIncreasing(sqrt, ladder, p, end, Top(ladder, p));
    }
  }
}
