/** The liquidity distribution around the current tick (src/analytics/depth.rs)
    and what it means for a pool made of positions [lower, upper). */
module Depth {
  import opened Numerics
  import opened Ticks

  /** An initialized tick and the liquidity gained when it is crossed upward. */
  datatype TickDelta = TickDelta(tick: int, net: int)

  datatype LiquidityLevel = LiquidityLevel(price: real, liquidity: nat)

  /** `as i128` on a u128. */
  function AsI128(x: u128): int {
    if x < TWO_POW_127 then x else x - TWO_POW_128
  }

  /** i32 division by 2 truncates toward zero. */
  function HalfTowardZero(x: int): int {
    if x >= 0 then x / 2 else -(-x / 2)
  }

  function BucketStart(currentTick: int, spacing: int, i: int): int {
    currentTick + i * spacing
  }

  /** Sum of the deltas at ticks in (lo, hi]. */
  function SumIn(deltas: seq<TickDelta>, lo: int, hi: int): int {
    if deltas == [] then 0
    else (if lo < deltas[0].tick <= hi then deltas[0].net else 0) + SumIn(deltas[1..], lo, hi)
  }

  /** The running total of bucket i: deltas up to its start are added on the
      right, deltas above its start are taken off on the left. */
  function RunningAt(deltas: seq<TickDelta>, anchor: int, currentTick: int, spacing: int, i: int): int {
    var start := BucketStart(currentTick, spacing, i);
    if i >= 0 then anchor + SumIn(deltas, currentTick, start) else anchor - SumIn(deltas, start, currentTick)
  }

  function NonNegative(x: int): nat {
    if x > 0 then x else 0
  }

  function LevelAt(deltas: seq<TickDelta>, anchor: int, currentTick: int, spacing: int, i: int): LiquidityLevel {
    LiquidityLevel(TickPrice(BucketStart(currentTick, spacing, i) + HalfTowardZero(spacing)),
                   NonNegative(RunningAt(deltas, anchor, currentTick, spacing, i)))
  }

  lemma NextBucket(currentTick: int, spacing: int, i: int)
    ensures BucketStart(currentTick, spacing, i + 1) == BucketStart(currentTick, spacing, i) + spacing
    ensures BucketStart(currentTick, spacing, 0) == currentTick
  {
  }

  lemma {:induction false} SumsJoin(deltas: seq<TickDelta>, lo: int, mid: int, hi: int)
    requires lo <= mid <= hi
    ensures SumIn(deltas, lo, mid) + SumIn(deltas, mid, hi) == SumIn(deltas, lo, hi)
  {
    if deltas != [] {
      SumsJoin(deltas[1..], lo, mid, hi);
    }
  }

  lemma {:induction false} EmptyInterval(deltas: seq<TickDelta>, lo: int, hi: int)
    requires hi <= lo
    ensures SumIn(deltas, lo, hi) == 0
  {
    if deltas != [] {
      EmptyInterval(deltas[1..], lo, hi);
    }
  }

  /** Bucket k of one side is between the current tick and bucket k + 1. */
  lemma BucketsAreOrdered(spacing: int, k: nat)
    ensures spacing >= 0 ==> 0 <= k * spacing <= (k + 1) * spacing
    ensures spacing < 0 ==> (k + 1) * spacing <= k * spacing <= 0
  {
  }

  lemma RightStep(deltas: seq<TickDelta>, anchor: int, currentTick: int, spacing: int, k: nat)
    ensures var start := BucketStart(currentTick, spacing, k + 1);
            RunningAt(deltas, anchor, currentTick, spacing, k + 1)
            == RunningAt(deltas, anchor, currentTick, spacing, k) + SumIn(deltas, start - spacing, start)
  {
    var prev := BucketStart(currentTick, spacing, k);
    NextBucket(currentTick, spacing, k);
    BucketsAreOrdered(spacing, k);
    if spacing >= 0 {
      SumsJoin(deltas, currentTick, prev, prev + spacing);
    } else {
      EmptyInterval(deltas, currentTick, prev);
      EmptyInterval(deltas, prev, prev + spacing);
      EmptyInterval(deltas, currentTick, prev + spacing);
    }
  }

  lemma LeftStep(deltas: seq<TickDelta>, anchor: int, currentTick: int, spacing: int, k: int)
    requires k >= 0
    ensures var start := BucketStart(currentTick, spacing, -k - 1);
            RunningAt(deltas, anchor, currentTick, spacing, -k - 1)
            == RunningAt(deltas, anchor, currentTick, spacing, -k) - SumIn(deltas, start, start + spacing)
  {
    var prev := BucketStart(currentTick, spacing, -k);
    NextBucket(currentTick, spacing, -k - 1);
    BucketsAreOrdered(spacing, k);
    assert -k * spacing == -(k * spacing);
    EmptyInterval(deltas, currentTick, currentTick);
    if spacing >= 0 {
      SumsJoin(deltas, prev - spacing, prev, currentTick);
    } else {
      EmptyInterval(deltas, prev, currentTick);
      EmptyInterval(deltas, prev - spacing, prev);
      EmptyInterval(deltas, prev - spacing, currentTick);
    }
  }

  function Reversed<T>(s: seq<T>): (r: seq<T>)
    ensures |r| == |s|
    ensures forall i | 0 <= i < |s| :: r[i] == s[|s| - 1 - i]
  {
    seq(|s|, i requires 0 <= i < |s| => s[|s| - 1 - i])
  }

  /** The right walk: buckets 0 to n, adding deltas. */
  method RightWalk(deltas: seq<TickDelta>, anchor: int, currentTick: int, spacing: int, n: nat)
    returns (right: seq<LiquidityLevel>)
    ensures |right| == n + 1
    ensures forall k | 0 <= k <= n :: right[k] == LevelAt(deltas, anchor, currentTick, spacing, k)
  {
    right := [];
    var running := anchor;
    for i := 0 to n + 1
      invariant |right| == i
      invariant i > 0 ==> running == RunningAt(deltas, anchor, currentTick, spacing, i - 1)
      invariant i == 0 ==> running == anchor
      invariant forall k | 0 <= k < i :: right[k] == LevelAt(deltas, anchor, currentTick, spacing, k)
    {
      var bucketStart := BucketStart(currentTick, spacing, i);
      if i > 0 {
        running := running + SumIn(deltas, bucketStart - spacing, bucketStart);
        RightStep(deltas, anchor, currentTick, spacing, i - 1);
      } else {
        EmptyInterval(deltas, currentTick, bucketStart);
      }
      right := right + [LiquidityLevel(TickPrice(bucketStart + HalfTowardZero(spacing)), NonNegative(running))];
    }
  }

  /** The left walk: buckets -1 to -n, subtracting deltas. */
  method LeftWalk(deltas: seq<TickDelta>, anchor: int, currentTick: int, spacing: int, n: nat)
    returns (left: seq<LiquidityLevel>)
    ensures |left| == n
    ensures forall k | 0 <= k < n :: left[k] == LevelAt(deltas, anchor, currentTick, spacing, -k - 1)
  {
    left := [];
    var running := anchor;
    EmptyInterval(deltas, currentTick, currentTick);
    for i := 0 to n
      invariant |left| == i
      invariant running == RunningAt(deltas, anchor, currentTick, spacing, -i)
      invariant forall k | 0 <= k < i :: left[k] == LevelAt(deltas, anchor, currentTick, spacing, -k - 1)
    {
      var bucketStart := BucketStart(currentTick, spacing, -i - 1);
      running := running - SumIn(deltas, bucketStart, bucketStart + spacing);
      LeftStep(deltas, anchor, currentTick, spacing, i);
      left := left + [LiquidityLevel(TickPrice(bucketStart + HalfTowardZero(spacing)), NonNegative(running))];
    }
  }

  /** `build_distribution`: the left levels reversed in front of the right ones. */
  method BuildDistribution(deltas: seq<TickDelta>, currentLiquidity: u128, currentTick: int, spacing: int, n: nat)
    returns (levels: seq<LiquidityLevel>)
    ensures |levels| == 2 * n + 1
    ensures forall j | 0 <= j < 2 * n + 1 ::
      levels[j] == LevelAt(deltas, AsI128(currentLiquidity), currentTick, spacing, j - n)
  {
    var right := RightWalk(deltas, AsI128(currentLiquidity), currentTick, spacing, n);
    var left := LeftWalk(deltas, AsI128(currentLiquidity), currentTick, spacing, n);
    levels := Reversed(left) + right;
    forall j | 0 <= j < 2 * n + 1
      ensures levels[j] == LevelAt(deltas, AsI128(currentLiquidity), currentTick, spacing, j - n)
    {
      if j < n {
        assert levels[j] == left[n - 1 - j];
      } else {
        assert levels[j] == right[j - n];
      }
    }
  }

  /** With a positive spacing the bucket prices are strictly ascending. */
  lemma PricesAscend(deltas: seq<TickDelta>, anchor: int, currentTick: int, spacing: int, i: int, j: int)
    requires spacing > 0 && i < j
    ensures LevelAt(deltas, anchor, currentTick, spacing, i).price < LevelAt(deltas, anchor, currentTick, spacing, j).price
  {
    MultipleIsFar(j - i, spacing);
    assert (j - i) * spacing == j * spacing - i * spacing;
    TickPriceOrder(BucketStart(currentTick, spacing, i) + HalfTowardZero(spacing),
                   BucketStart(currentTick, spacing, j) + HalfTowardZero(spacing));
  }

  // ---------------------------------------------------------------------
  // The meaning: positions covering a tick
  // ---------------------------------------------------------------------

  datatype Position = Position(lower: int, upper: int, liquidity: nat)

  /** Liquidity of the positions that cover tick x. */
  function Active(positions: seq<Position>, x: int): nat {
    if positions == [] then 0
    else (if positions[0].lower <= x < positions[0].upper then positions[0].liquidity else 0) + Active(positions[1..], x)
  }

  function BoundAt(bound: int, p: Position, t: int): nat {
    if bound == t then p.liquidity else 0
  }

  /** What opening these positions leaves at tick t: liquidity enters at the
      lower bound and leaves at the upper one. */
  function NetAt(positions: seq<Position>, t: int): int {
    if positions == [] then 0
    else BoundAt(positions[0].lower, positions[0], t) - BoundAt(positions[0].upper, positions[0], t) + NetAt(positions[1..], t)
  }

  ghost predicate ProperPositions(positions: seq<Position>) {
    forall i | 0 <= i < |positions| :: positions[i].lower < positions[i].upper
  }

  /** The tick list agrees with the positions at every tick of (lo, hi]; entries
      may come in any order and be split up. */
  ghost predicate AgreesWithin(deltas: seq<TickDelta>, positions: seq<Position>, lo: int, hi: int) {
    forall t | lo < t <= hi :: SumIn(deltas, t - 1, t) == NetAt(positions, t)
  }

  lemma {:induction false} ActiveStep(positions: seq<Position>, t: int)
    requires ProperPositions(positions)
    ensures Active(positions, t) - Active(positions, t - 1) == NetAt(positions, t)
  {
    if positions != [] {
      var p := positions[0];
      assert p.lower < p.upper;
      ActiveStep(positions[1..], t);
    }
  }

  /** Prefix sums telescope to a difference of active liquidity. */
  lemma {:induction false} SumIsDifference(deltas: seq<TickDelta>, positions: seq<Position>, lo: int, hi: int)
    requires lo <= hi && ProperPositions(positions) && AgreesWithin(deltas, positions, lo, hi)
    ensures SumIn(deltas, lo, hi) == Active(positions, hi) - Active(positions, lo)
    decreases hi - lo
  {
    if lo == hi {
      EmptyInterval(deltas, lo, hi);
    } else {
      SumIsDifference(deltas, positions, lo, hi - 1);
      SumsJoin(deltas, lo, hi - 1, hi);
      ActiveStep(positions, hi);
    }
  }

  /** Every bucket of the distribution reports exactly the positions covering
      its start. */
  ghost predicate Faithful(deltas: seq<TickDelta>, positions: seq<Position>, currentLiquidity: u128, currentTick: int,
                           spacing: int, n: nat)
  {
    forall i | 0 <= i + n <= 2 * n ::
      LevelAt(deltas, AsI128(currentLiquidity), currentTick, spacing, i).liquidity
      == Active(positions, BucketStart(currentTick, spacing, i))
  }

  /** The running total before the clamp at 0, on both walks. */
  lemma RunningIsActive(deltas: seq<TickDelta>, positions: seq<Position>, currentTick: int, spacing: nat, n: nat, i: int)
    requires ProperPositions(positions) && 0 <= i + n <= 2 * n
    requires AgreesWithin(deltas, positions, currentTick - n * spacing, currentTick + n * spacing)
    ensures RunningAt(deltas, Active(positions, currentTick), currentTick, spacing, i)
            == Active(positions, BucketStart(currentTick, spacing, i))
  {
    ScaleInt(0, i + n, spacing);
    ScaleInt(i, n, spacing);
    assert (i + n) * spacing == i * spacing + n * spacing;
    if i >= 0 {
      ScaleInt(0, i, spacing);
      SumIsDifference(deltas, positions, currentTick, BucketStart(currentTick, spacing, i));
    } else {
      ScaleInt(i, 0, spacing);
      SumIsDifference(deltas, positions, BucketStart(currentTick, spacing, i), currentTick);
    }
  }

  lemma ScaleInt(x: int, y: int, m: nat)
    requires x <= y
    ensures x * m <= y * m
  {
    assert (y - x) * m >= 0;
  }

  /** For every set of positions and every tick list that agrees with it between
      the outermost buckets, all 2n + 1 buckets are right, and the clamp never
      fires, exactly when the pool's liquidity fits the i128 the walk runs in. */
  lemma DistributionIsActiveLiquidity(deltas: seq<TickDelta>, positions: seq<Position>, currentLiquidity: u128,
                                      currentTick: int, spacing: nat, n: nat)
    requires ProperPositions(positions) && currentLiquidity == Active(positions, currentTick)
    requires AgreesWithin(deltas, positions, currentTick - n * spacing, currentTick + n * spacing)
    ensures Faithful(deltas, positions, currentLiquidity, currentTick, spacing, n) <==> currentLiquidity < TWO_POW_127
    ensures currentLiquidity < TWO_POW_127 ==>
              forall i | 0 <= i + n <= 2 * n :: RunningAt(deltas, AsI128(currentLiquidity), currentTick, spacing, i) >= 0
  {
    forall i | 0 <= i + n <= 2 * n
      ensures RunningAt(deltas, currentLiquidity, currentTick, spacing, i)
              == Active(positions, BucketStart(currentTick, spacing, i))
    {
      RunningIsActive(deltas, positions, currentTick, spacing, n, i);
    }
    if currentLiquidity >= TWO_POW_127 {
      NextBucket(currentTick, spacing, 0);
      EmptyInterval(deltas, currentTick, currentTick);
      assert LevelAt(deltas, AsI128(currentLiquidity), currentTick, spacing, 0).liquidity
             != Active(positions, BucketStart(currentTick, spacing, 0));
    }
  }

  /** A pool liquidity that does not fit turns negative, and the current bucket
      reports nothing. */
  lemma OversizedReportsNothing(deltas: seq<TickDelta>, currentLiquidity: u128, currentTick: int, spacing: int)
    requires currentLiquidity >= TWO_POW_127
    ensures LevelAt(deltas, AsI128(currentLiquidity), currentTick, spacing, 0).liquidity == 0
  {
    NextBucket(currentTick, spacing, 0);
    EmptyInterval(deltas, currentTick, currentTick);
  }

  /** Half a spacing of either sign, cut toward zero. */
  lemma HalfMeaning(x: int)
    ensures HalfTowardZero(-x) == -HalfTowardZero(x)
    ensures x >= 0 ==> x - 1 <= 2 * HalfTowardZero(x) <= x
  {
  }

  /** Middle of a bucket, where its price is taken. */
  function BucketMid(currentTick: int, spacing: nat, i: int): int {
    BucketStart(currentTick, spacing, i) + spacing / 2
  }

  lemma BucketWithin(currentTick: int, spacing: nat, n: nat, i: int)
    requires 0 <= i + n <= 2 * n
    ensures currentTick - n * spacing <= BucketStart(currentTick, spacing, i) <= currentTick + n * spacing
  {
    ScaleInt(0, i + n, spacing);
    ScaleInt(i, n, spacing);
    assert (i + n) * spacing == i * spacing + n * spacing;
  }

  /** The reported level belongs to the bucket's start. On both walks it is the
      liquidity at the bucket's middle, as documented, exactly when the deltas in
      between cancel out. */
  lemma MidBucketIff(deltas: seq<TickDelta>, positions: seq<Position>, currentLiquidity: u128,
                     currentTick: int, spacing: nat, n: nat, i: int)
    requires ProperPositions(positions) && currentLiquidity == Active(positions, currentTick) < TWO_POW_127
    requires AgreesWithin(deltas, positions, currentTick - n * spacing, currentTick + n * spacing + spacing / 2)
    requires 0 <= i + n <= 2 * n
    ensures var start, mid := BucketStart(currentTick, spacing, i), BucketMid(currentTick, spacing, i);
            LevelAt(deltas, AsI128(currentLiquidity), currentTick, spacing, i).liquidity == Active(positions, mid)
            <==> SumIn(deltas, start, mid) == 0
  {
    BucketWithin(currentTick, spacing, n, i);
    RunningIsActive(deltas, positions, currentTick, spacing, n, i);
    SumIsDifference(deltas, positions, BucketStart(currentTick, spacing, i), BucketMid(currentTick, spacing, i));
  }

  /** A pool with spacing 64 whose price, tick 40, is off the grid: a position from
      tick 64 on covers the middle of the current bucket but not its start. */
  lemma MidBucketMissed(deltas: seq<TickDelta>, positions: seq<Position>)
    requires deltas == [TickDelta(64, 1), TickDelta(128, -1)] && positions == [Position(64, 128, 1)]
    ensures forall t :: SumIn(deltas, t - 1, t) == NetAt(positions, t)
    ensures LevelAt(deltas, Active(positions, 40), 40, 64, 0).liquidity == 0
    ensures Active(positions, BucketMid(40, 64, 0)) == 1
  {
    forall t
      ensures SumIn(deltas, t - 1, t) == NetAt(positions, t)
    {
      assert deltas[1..] == [TickDelta(128, -1)] && deltas[1..][1..] == [] && positions[1..] == [];
      assert SumIn(deltas[1..], t - 1, t) == if t == 128 then -1 else 0;
    }
    assert positions[1..] == [];
    EmptyInterval(deltas, 40, BucketStart(40, 64, 0));
    assert Active(positions, 72) == 1;
  }
}
