/** Synthesising replay rows from candles (src/backtest/backfill.rs), and the
    round trip of the fees through the replay. */
module Backfill {
  import opened Numerics
  import opened Ticks
  import opened Fees
  import opened ImpermanentLoss
  import opened DayRollup
  import opened DbReplay
  import opened ReplayFees

  datatype Candle = Candle(timestamp: int, close: real, volumeUsd: real)

  datatype PoolParams = PoolParams(
    feeRateBps: real,
    poolLiquidity: u128,
    decimalsA: nat,
    decimalsB: nat,
    tickSpacing: int)

  const MAX_U128: u128 := TWO_POW_128 - 1

  /** `as u128` of a real: truncates and saturates; the library's u128::MAX as a
      float is 2^128. */
  function ToU128(v: real): u128 {
    if v <= 0.0 then 0 else if v >= TWO_POW_128 as real then MAX_U128 else v.Floor
  }

  function PriceToSqrtQ64(sqrt: real -> real, rawPrice: real): u128 {
    if rawPrice <= 0.0 then 0 else ToU128(sqrt(rawPrice) * TWO_POW_64 as real)
  }

  /** A stored root and the price it stands for. */
  lemma StoredRoot(sqrt: real -> real, x: u128) returns (r: real)
    requires IsSqrt(sqrt)
    ensures r >= 0.0 && r * TWO_POW_64 as real == x as real
    ensures SqrtQ64ToPrice(x) == r * r && sqrt(r * r) == r && r * r >= 0.0
  {
    r := x as real / TWO_POW_64 as real;
    assert r * TWO_POW_64 as real == x as real;
    SignOfFactor(r, TWO_POW_64 as real);
    SqrtQ64ToPriceIsExact(x, r);
    ProductOfNonNegatives(r, r);
    RootsOrdered(sqrt(r * r), r, r * r, r * r);
  }

  /** Price to stored root and back, for every price: non-positive prices give 0,
      a root of 2^64 or more saturates, and any other price comes back with its
      root rounded down by less than one unit, so never higher. */
  lemma SqrtPriceRoundTrip(sqrt: real -> real, rawPrice: real)
    requires IsSqrt(sqrt)
    ensures rawPrice <= 0.0 ==> PriceToSqrtQ64(sqrt, rawPrice) == 0
    ensures rawPrice > 0.0 && sqrt(rawPrice) >= TWO_POW_64 as real ==> PriceToSqrtQ64(sqrt, rawPrice) == MAX_U128
    ensures rawPrice > 0.0 && sqrt(rawPrice) < TWO_POW_64 as real ==>
              var back := SqrtQ64ToPrice(PriceToSqrtQ64(sqrt, rawPrice));
              && 0.0 <= back <= rawPrice
              && sqrt(back) <= sqrt(rawPrice) < sqrt(back) + 1.0 / TWO_POW_64 as real
  {
    if rawPrice > 0.0 {
      RootsOrdered(0.0, sqrt(rawPrice), 0.0, rawPrice);
      ScaledRoot(sqrt(rawPrice));
      if sqrt(rawPrice) < TWO_POW_64 as real {
        RoundedRoot(sqrt, rawPrice);
      }
    }
  }

  lemma ScaledRoot(s: real)
    requires s > 0.0
    ensures s * TWO_POW_64 as real > 0.0
    ensures s >= TWO_POW_64 as real <==> s * TWO_POW_64 as real >= TWO_POW_128 as real
  {
    SignOfFactor(s, TWO_POW_64 as real);
    SignOfFactor(s - TWO_POW_64 as real, TWO_POW_64 as real);
    assert TWO_POW_64 as real * TWO_POW_64 as real == TWO_POW_128 as real;
  }

  lemma RoundedRoot(sqrt: real -> real, rawPrice: real)
    requires IsSqrt(sqrt) && rawPrice > 0.0 && 0.0 < sqrt(rawPrice) < TWO_POW_64 as real
    ensures var back := SqrtQ64ToPrice(PriceToSqrtQ64(sqrt, rawPrice));
            && 0.0 <= back <= rawPrice
            && sqrt(back) <= sqrt(rawPrice) < sqrt(back) + 1.0 / TWO_POW_64 as real
  {
    var unit, s := TWO_POW_64 as real, sqrt(rawPrice);
    ScaledRoot(s);
    var x := PriceToSqrtQ64(sqrt, rawPrice);
    assert x == (s * unit).Floor;
    var r := StoredRoot(sqrt, x);
    RootWithinUnit(s, r, unit, s * unit, x as real);
    SquareOrder(r, s);
  }

  lemma RootWithinUnit(s: real, r: real, unit: real, v: real, x: real)
    requires unit > 0.0 && v == s * unit && x == r * unit && x <= v < x + 1.0
    ensures r <= s < r + 1.0 / unit
  {
    var u := 1.0 / unit;
    assert u * unit == 1.0;
    SignOfFactor(s - r, unit);
    SignOfFactor(r + u - s, unit);
    assert (s - r) * unit == v - x && (r + u - s) * unit == x + 1.0 - v;
  }

  function SaturatingAdd(a: u128, b: u128): u128 {
    if a + b > MAX_U128 then MAX_U128 else a + b
  }

  function FeeRate(p: PoolParams): real {
    p.feeRateBps / 10000.0
  }

  /** Fee growth of a candle before rounding. */
  function CandleGrowth(p: PoolParams, c: Candle): real {
    if p.poolLiquidity > 0 && c.volumeUsd > 0.0 then
      c.volumeUsd * FeeRate(p) * Ten(p.decimalsB) / p.poolLiquidity as real * TWO_POW_64 as real
    else 0.0
  }

  /** The saturating counter after the first k candles. */
  function GrowthAfter(p: PoolParams, candles: seq<Candle>, k: nat): u128
    requires k <= |candles|
  {
    if k == 0 then 0 else SaturatingAdd(GrowthAfter(p, candles, k - 1), ToU128(CandleGrowth(p, candles[k - 1])))
  }

  function CandleRow(m: RealMath, p: PoolParams, c: Candle, growth: u128): Row
    requires p.tickSpacing != 0
  {
    var rawPrice := c.close / Ten(p.decimalsA - p.decimalsB);
    Row(c.timestamp, PriceToTick(m.tickOf, rawPrice, p.tickSpacing), PriceToSqrtQ64(m.sqrt, rawPrice),
        p.poolLiquidity, 0, growth)
  }

  /** The counter moves only on a candle with volume in a pool with liquidity. */
  method Accumulate(p: PoolParams, c: Candle, feeGrowthB: u128) returns (next: u128)
    ensures next == SaturatingAdd(feeGrowthB, ToU128(CandleGrowth(p, c)))
  {
    next := feeGrowthB;
    if p.poolLiquidity > 0 && c.volumeUsd > 0.0 {
      var growth := CandleGrowth(p, c);
      if growth > 0.0 {
        next := SaturatingAdd(next, ToU128(growth));
      }
    }
  }

  /** `synthesize_ticks`: a baseline row at the first candle's price and time,
      then one row per candle with the growth so far. */
  method SynthesizeTicks(m: RealMath, candles: seq<Candle>, p: PoolParams) returns (rows: seq<Row>)
    requires candles == [] || p.tickSpacing != 0
    ensures candles == [] ==> rows == []
    ensures candles != [] ==> IsSynthesized(m, candles, p, rows)
  {
    if |candles| == 0 {
      return [];
    }
    var candleRows := AppendCandles(m, candles, p);
    rows := [CandleRow(m, p, candles[0], 0)] + candleRows;
    forall j | 0 <= j < |candles|
      ensures rows[j + 1] == CandleRow(m, p, candles[j], GrowthAfter(p, candles, j + 1))
    {
      CandleRowAt(m, p, candles, |candles|, j);
    }
  }

  /** The rows of the first k candles. */
  function CandleRows(m: RealMath, p: PoolParams, candles: seq<Candle>, k: nat): (rows: seq<Row>)
    requires p.tickSpacing != 0 && k <= |candles|
    ensures |rows| == k
  {
    if k == 0 then []
    else CandleRows(m, p, candles, k - 1) + [CandleRow(m, p, candles[k - 1], GrowthAfter(p, candles, k))]
  }

  lemma {:induction false} CandleRowAt(m: RealMath, p: PoolParams, candles: seq<Candle>, k: nat, j: nat)
    requires p.tickSpacing != 0 && j < k <= |candles|
    ensures CandleRows(m, p, candles, k)[j] == CandleRow(m, p, candles[j], GrowthAfter(p, candles, j + 1))
  {
    if j < k - 1 {
      CandleRowAt(m, p, candles, k - 1, j);
    }
  }

  /** The loop over the candles. */
  method AppendCandles(m: RealMath, candles: seq<Candle>, p: PoolParams) returns (rows: seq<Row>)
    requires p.tickSpacing != 0
    ensures rows == CandleRows(m, p, candles, |candles|)
  {
    var feeGrowthB: u128 := 0;
    rows := [];
    for i := 0 to |candles|
      invariant feeGrowthB == GrowthAfter(p, candles, i)
      invariant rows == CandleRows(m, p, candles, i)
    {
      feeGrowthB := Accumulate(p, candles[i], feeGrowthB);
      rows := rows + [CandleRow(m, p, candles[i], feeGrowthB)];
    }
  }

  ghost predicate IsSynthesized(m: RealMath, candles: seq<Candle>, p: PoolParams, rows: seq<Row>)
    requires p.tickSpacing != 0 && candles != []
  {
    && |rows| == |candles| + 1
    && rows[0] == CandleRow(m, p, candles[0], 0)
    && forall j | 0 <= j < |candles| :: rows[j + 1] == CandleRow(m, p, candles[j], GrowthAfter(p, candles, j + 1))
  }

  // ---------------------------------------------------------------------
  // The counter
  // ---------------------------------------------------------------------

  function FloorGrowth(p: PoolParams, c: Candle): nat {
    var g := CandleGrowth(p, c);
    if g <= 0.0 then 0 else g.Floor
  }

  /** The same counter without a width. */
  function UnboundedGrowth(p: PoolParams, candles: seq<Candle>, k: nat): nat
    requires k <= |candles|
  {
    if k == 0 then 0 else UnboundedGrowth(p, candles, k - 1) + FloorGrowth(p, candles[k - 1])
  }

  lemma ToU128IsFloor(v: real)
    ensures var f := if v <= 0.0 then 0 else v.Floor;
            ToU128(v) == if f <= MAX_U128 then f else MAX_U128
  {
  }

  /** Saturating each step is saturating once at the end. */
  lemma {:induction false} SaturatesOnce(p: PoolParams, candles: seq<Candle>, k: nat)
    requires k <= |candles|
    ensures GrowthAfter(p, candles, k)
            == if UnboundedGrowth(p, candles, k) <= MAX_U128 then UnboundedGrowth(p, candles, k) else MAX_U128
  {
    if k > 0 {
      SaturatesOnce(p, candles, k - 1);
      ToU128IsFloor(CandleGrowth(p, candles[k - 1]));
    }
  }

  /** Fee growth of the first k candles before any rounding. */
  function ExactGrowth(p: PoolParams, candles: seq<Candle>, k: nat): real
    requires k <= |candles|
  {
    if k == 0 then 0.0 else ExactGrowth(p, candles, k - 1) + CandleGrowth(p, candles[k - 1])
  }

  function PositiveVolumes(candles: seq<Candle>, k: nat): nat
    requires k <= |candles|
  {
    if k == 0 then 0 else PositiveVolumes(candles, k - 1) + (if candles[k - 1].volumeUsd > 0.0 then 1 else 0)
  }

  lemma CandleGrowthNonNegative(p: PoolParams, c: Candle)
    requires p.poolLiquidity > 0 && p.feeRateBps >= 0.0
    ensures CandleGrowth(p, c) >= 0.0
    ensures c.volumeUsd <= 0.0 ==> CandleGrowth(p, c) == 0.0
  {
    if c.volumeUsd > 0.0 {
      ProductOfNonNegatives(c.volumeUsd, FeeRate(p));
      ProductOfNonNegatives(c.volumeUsd * FeeRate(p), Ten(p.decimalsB));
      var q := c.volumeUsd * FeeRate(p) * Ten(p.decimalsB) / p.poolLiquidity as real;
      assert q * p.poolLiquidity as real == c.volumeUsd * FeeRate(p) * Ten(p.decimalsB);
      SignOfFactor(q, p.poolLiquidity as real);
      ProductOfNonNegatives(q, TWO_POW_64 as real);
    }
  }

  /** Rounding loses less than one unit per candle with volume. */
  lemma {:induction false} RoundingLoss(p: PoolParams, candles: seq<Candle>, k: nat)
    requires k <= |candles| && p.poolLiquidity > 0 && p.feeRateBps >= 0.0
    ensures var floored := UnboundedGrowth(p, candles, k) as real;
            floored <= ExactGrowth(p, candles, k) <= floored + PositiveVolumes(candles, k) as real
  {
    if k > 0 {
      RoundingLoss(p, candles, k - 1);
      CandleGrowthNonNegative(p, candles[k - 1]);
    }
  }

  // ---------------------------------------------------------------------
  // The round trip
  // ---------------------------------------------------------------------

  /** Token-B value of an unrounded growth. */
  function ValueB(input: Input, g: real): real {
    g / TWO_POW_64 as real * input.positionLiquidity as real / Ten(input.decimalsB)
  }

  lemma ValueAdds(input: Input, g: real, h: real)
    ensures ValueB(input, g) + ValueB(input, h) == ValueB(input, g + h)
  {
    var t, l, s := TWO_POW_64 as real, input.positionLiquidity as real, Ten(input.decimalsB);
    QuotientSum(g, h, t);
    assert g / t * l + h / t * l == (g / t + h / t) * l;
    QuotientSum(g / t * l, h / t * l, s);
  }

  lemma QuotientKeepsOrder(x: real, y: real, m: real)
    requires m > 0.0 && x <= y
    ensures x / m <= y / m
  {
    ScaleOrder(x, y, m);
    RatioOrder(x, m, y, m);
  }

  lemma ValueKeepsOrder(input: Input, g: real, h: real)
    requires g <= h
    ensures ValueB(input, g) <= ValueB(input, h)
  {
    QuotientKeepsOrder(g, h, TWO_POW_64 as real);
    ProductThenQuotient(g / TWO_POW_64 as real, h / TWO_POW_64 as real, input.positionLiquidity as real,
                        Ten(input.decimalsB));
  }

  lemma ProductThenQuotient(x: real, y: real, l: real, m: real)
    requires m > 0.0 && l >= 0.0 && x <= y
    ensures x * l / m <= y * l / m
  {
    ScaleOrder(x, y, l);
    QuotientKeepsOrder(x * l, y * l, m);
  }

  /** The position's share of a candle's pool fees. */
  function CandleShare(p: PoolParams, input: Input, c: Candle): real {
    if p.poolLiquidity > 0 && c.volumeUsd > 0.0 then
      c.volumeUsd * (p.feeRateBps / 10000.0) * input.positionLiquidity as real / p.poolLiquidity as real
    else 0.0
  }

  /** S: the position's share of all pool fees of the first k candles. */
  function ShareOfFees(p: PoolParams, input: Input, candles: seq<Candle>, k: nat): real
    requires k <= |candles|
  {
    if k == 0 then 0.0 else ShareOfFees(p, input, candles, k - 1) + CandleShare(p, input, candles[k - 1])
  }

  /** Scaling up by s and t and back down again is exact. */
  lemma ThereAndBack(x: real, s: real, pool: real, t: real, l: real)
    requires s > 0.0 && pool > 0.0 && t > 0.0
    ensures x * s / pool * t / t * l / s == x * l / pool
  {
    var y := x * s / pool;
    var z, w := y * l / s, x * l / pool;
    assert y * t / t == y;
    assert y * pool == x * s && z * s == y * l && w * pool == x * l;
    SignOfFactor(s, pool);
    SignOfFactor(z - w, s * pool);
    assert (z - w) * (s * pool) == (z * s) * pool - (w * pool) * s;
    assert (y * l) * pool == (y * pool) * l;
  }

  lemma ValueOfCandle(p: PoolParams, input: Input, c: Candle)
    requires input.decimalsB == p.decimalsB
    ensures ValueB(input, CandleGrowth(p, c)) == CandleShare(p, input, c)
  {
    if p.poolLiquidity > 0 && c.volumeUsd > 0.0 {
      ThereAndBack(c.volumeUsd * FeeRate(p), Ten(p.decimalsB), p.poolLiquidity as real, TWO_POW_64 as real,
                   input.positionLiquidity as real);
    } else {
      ValueAdds(input, 0.0, 0.0);
    }
  }

  lemma {:induction false} ValueOfGrowth(p: PoolParams, input: Input, candles: seq<Candle>, k: nat)
    requires input.decimalsB == p.decimalsB && k <= |candles|
    ensures ValueB(input, ExactGrowth(p, candles, k)) == ShareOfFees(p, input, candles, k)
  {
    if k == 0 {
      ValueAdds(input, 0.0, 0.0);
    } else {
      ValueOfGrowth(p, input, candles, k - 1);
      ValueOfCandle(p, input, candles[k - 1]);
      ValueAdds(input, ExactGrowth(p, candles, k - 1), CandleGrowth(p, candles[k - 1]));
    }
  }

  /** What the replay needs to know about synthesised rows: one true counter, no
      token-A growth, liquidity everywhere. */
  lemma RowsAreCounted(m: RealMath, candles: seq<Candle>, p: PoolParams, rows: seq<Row>) returns (totals: seq<int>)
    requires p.tickSpacing != 0 && candles != [] && p.poolLiquidity > 0 && IsSynthesized(m, candles, p, rows)
    ensures Counted(rows, totals) && totals[0] == 0
    ensures totals[|candles|] == GrowthAfter(p, candles, |candles|)
    ensures forall i | 0 <= i < |rows| :: rows[i].feeGrowthA == 0
  {
    totals := seq(|rows|, i requires 0 <= i < |rows| => GrowthAfter(p, candles, i));
    forall i | 0 <= i < |rows|
      ensures rows[i].feeGrowthA == 0 && rows[i].feeGrowthB == totals[i] == Counter(totals[i]) && rows[i].liquidity > 0
    {
      CounterIsTotal(totals[i]);
      if i > 0 {
        assert rows[(i - 1) + 1] == CandleRow(m, p, candles[i - 1], GrowthAfter(p, candles, i));
      }
    }
    forall i | 0 < i < |rows|
      ensures StepCounted(rows, totals, i)
    {
    }
  }

  lemma CounterIsTotal(total: u128)
    ensures Counter(total) == total
  {
    QuotientIs(total, TWO_POW_128, 0, total);
  }

  lemma NoTokenA(input: Input, prev: Row, t: Row)
    requires prev.feeGrowthA == t.feeGrowthA
    ensures FeeA(input, prev, t) == 0.0
  {
    assert WrappingSub(t.feeGrowthA, prev.feeGrowthA) == 0;
    assert RawFees(0, input.positionLiquidity) == 0.0;
  }

  lemma {:induction false} NoTokenAFees(input: Input, rows: seq<Row>, k: nat)
    requires k <= |rows| && forall i | 0 <= i < |rows| :: rows[i].feeGrowthA == 0
    ensures TokenAFees(input, rows, k) == 0.0
  {
    if k > 1 {
      NoTokenAFees(input, rows, k - 1);
      NoTokenA(input, rows[k - 2], rows[k - 1]);
    }
  }

  /** Replayed fees of synthesised rows: the value of the saturated counter. */
  lemma ReplayedFees(m: RealMath, candles: seq<Candle>, p: PoolParams, rows: seq<Row>, input: Input)
    requires p.tickSpacing != 0 && candles != [] && p.poolLiquidity > 0 && IsSynthesized(m, candles, p, rows)
    ensures FeesAfter(input, rows, |rows|) == ValueB(input, GrowthAfter(p, candles, |candles|) as real)
  {
    var totals := RowsAreCounted(m, candles, p, rows);
    OnlyTokenB(input, rows, totals, |rows|);
    ValueOfCounter(input, totals[|candles|]);
  }

  lemma ValueOfCounter(input: Input, g: int)
    ensures GrowthValueB(input, g) == ValueB(input, g as real)
  {
  }

  lemma OnlyTokenB(input: Input, rows: seq<Row>, totals: seq<int>, k: nat)
    requires Counted(rows, totals) && 0 < k <= |rows| && totals[0] == 0
    requires forall i | 0 <= i < |rows| :: rows[i].feeGrowthA == 0
    ensures FeesAfter(input, rows, k) == GrowthValueB(input, totals[k - 1])
  {
    FeesSplit(input, rows, k);
    NoTokenAFees(input, rows, k);
    TokenBFeesArePathIndependent(input, rows, totals, k);
  }

  /** Fee round trip: for every candle list and every pool with liquidity, the
      replay earns at most the position's share S of the pool's fees; and unless
      the 128-bit counter saturates it earns at least S less one counter unit per
      candle with volume. */
  lemma FeeRoundTrip(m: RealMath, candles: seq<Candle>, p: PoolParams, rows: seq<Row>, input: Input)
    requires p.tickSpacing != 0 && candles != [] && IsSynthesized(m, candles, p, rows)
    requires p.poolLiquidity > 0 && p.feeRateBps >= 0.0 && input.decimalsB == p.decimalsB
    ensures var n := |candles|;
            var fees, share := FeesAfter(input, rows, |rows|), ShareOfFees(p, input, candles, n);
            && fees <= share
            && (UnboundedGrowth(p, candles, n) <= MAX_U128 ==>
                  share - ValueB(input, PositiveVolumes(candles, n) as real) <= fees)
  {
    var n := |candles|;
    var exact, counter := ExactGrowth(p, candles, n), GrowthAfter(p, candles, n) as real;
    var lost := PositiveVolumes(candles, n) as real;
    ReplayedFees(m, candles, p, rows, input);
    SaturatesOnce(p, candles, n);
    RoundingLoss(p, candles, n);
    ValueOfGrowth(p, input, candles, n);
    ValueKeepsOrder(input, counter, exact);
    if UnboundedGrowth(p, candles, n) <= MAX_U128 {
      ValueKeepsOrder(input, exact, counter + lost);
      ValueAdds(input, counter, lost);
    }
  }

  // ---------------------------------------------------------------------
  // The baseline row adds no day
  // ---------------------------------------------------------------------

  /** Number of maximal runs of equal dates. */
  function DateRuns(dates: seq<int>): nat {
    if |dates| <= 1 then |dates|
    else DateRuns(dates[1..]) + (if dates[0] != dates[1] then 1 else 0)
  }

  lemma {:induction false} RunsAppend(dates: seq<int>, d: int)
    requires dates != []
    ensures DateRuns(dates + [d]) == DateRuns(dates) + (if dates[|dates| - 1] != d then 1 else 0)
  {
    var all := dates + [d];
    assert all[1..] == dates[1..] + [d];
    if |dates| > 1 {
      RunsAppend(dates[1..], d);
    }
  }

  function DatesOf(obs: seq<Observation>): (dates: seq<int>)
    ensures |dates| == |obs|
    ensures forall i | 0 <= i < |obs| :: dates[i] == obs[i].date
  {
    seq(|obs|, i requires 0 <= i < |obs| => obs[i].date)
  }

  lemma {:induction false} DaysAreRuns(obs: seq<Observation>)
    ensures |DayStarts(obs)| == DateRuns(DatesOf(obs))
  {
    if |obs| > 1 {
      var n := |obs| - 1;
      DaysAreRuns(obs[..n]);
      assert DatesOf(obs) == DatesOf(obs[..n]) + [obs[n].date];
      RunsAppend(DatesOf(obs[..n]), obs[n].date);
    }
  }

  function CandleDates(candles: seq<Candle>): (dates: seq<int>)
    ensures |dates| == |candles|
  {
    seq(|candles|, i requires 0 <= i < |candles| => candles[i].timestamp / SECONDS_PER_DAY)
  }

  /** The replay of synthesised rows reports one day per run of candle dates. */
  lemma BaselineAddsNoDay(m: RealMath, candles: seq<Candle>, p: PoolParams, rows: seq<Row>, m': RealMath, input: Input)
    requires p.tickSpacing != 0 && candles != [] && IsSynthesized(m, candles, p, rows) && input.tickSpacing != 0
    ensures |Days(Observations(m', input, rows))| == DateRuns(CandleDates(candles))
  {
    var dates := CandleDates(candles);
    var all := DatesOf(Observations(m', input, rows));
    DaysAreRuns(Observations(m', input, rows));
    forall j | 0 <= j < |candles|
      ensures all[j + 1] == dates[j]
    {
      assert rows[j + 1] == CandleRow(m, p, candles[j], GrowthAfter(p, candles, j + 1));
    }
    assert all[1..] == dates;
    assert all[0] == dates[0];
  }
}
