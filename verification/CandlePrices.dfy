/** What a candle's row carries, and what the replay reads back from it, in plain
    amounts (src/backtest/backfill.rs:54-113, src/math/sqrt_price.rs:17-43). */
module CandlePrices {
  import opened Numerics
  import opened Ticks
  import opened ImpermanentLoss
  import opened DbReplay
  import opened ReplayRows
  import opened Backfill

  /** What a stored root stands for, in units of 2^-64. */
  function Root(x: int): real {
    x as real / TWO_POW_64 as real
  }

  /** `x` is the root of `raw` cut down to a multiple of 2^-64. */
  predicate CutRoot(x: int, raw: real) {
    Root(x) * Root(x) <= raw < Root(x + 1) * Root(x + 1)
  }

  /** Read back with the UI factor f, x gives `close`, less what the cut lost. */
  predicate ReadsBack(x: int, f: real, close: real) {
    Root(x) * Root(x) * f <= close < Root(x + 1) * Root(x + 1) * f
  }

  lemma RootMeaning(x: int)
    ensures Root(x) * 0x1_0000_0000_0000_0000 as real == x as real
    ensures x >= 0 ==> Root(x) >= 0.0
  {
    SignOfFactor(Root(x), TWO_POW_64 as real);
  }

  lemma CutWithin(s: real, unit: real, v: real, x: real, lo: real, hi: real)
    requires unit > 0.0 && s * unit == v && lo * unit == x && hi * unit == x + 1.0 && 0.0 <= x <= v < x + 1.0
    ensures 0.0 <= lo <= s < hi
  {
    SignOfFactor(lo, unit);
    SignOfFactor(s - lo, unit);
    SignOfFactor(hi - s, unit);
    assert (s - lo) * unit == v - x && (hi - s) * unit == x + 1.0 - v;
  }

  lemma SquaresWithin(lo: real, s: real, hi: real, raw: real)
    requires 0.0 <= lo <= s < hi && s * s == raw
    ensures lo * lo <= raw < hi * hi
  {
    SquareOrder(lo, s);
    SquareOrder(s, hi);
  }

  /** The stored root of a positive price that fits is its cut root. */
  lemma StoredRootIsCut(sqrt: real -> real, raw: real)
    requires IsSqrt(sqrt) && raw > 0.0 && 0.0 < sqrt(raw) < TWO_POW_64 as real && sqrt(raw) * sqrt(raw) == raw
    ensures CutRoot(PriceToSqrtQ64(sqrt, raw), raw)
  {
    var s := sqrt(raw);
    var v := s * TWO_POW_64 as real;
    ScaledRoot(s);
    FloorWithin(v);
    CutByRoot(s, v, PriceToSqrtQ64(sqrt, raw), raw);
  }

  lemma FloorWithin(v: real)
    requires 0.0 < v < TWO_POW_128 as real
    ensures ToU128(v) as real <= v < ToU128(v) as real + 1.0
  {
  }

  lemma CutByRoot(s: real, v: real, x: int, raw: real)
    requires s > 0.0 && s * s == raw && v == s * TWO_POW_64 as real && 0 <= x && x as real <= v < x as real + 1.0
    ensures CutRoot(x, raw)
  {
    RootMeaning(x);
    RootMeaning(x + 1);
    CutWithin(s, TWO_POW_64 as real, v, x as real, Root(x), Root(x + 1));
    SquaresWithin(Root(x), s, Root(x + 1), raw);
  }

  lemma ScaleWithin(lo: real, raw: real, hi: real, f: real, close: real)
    requires lo <= raw < hi && f > 0.0 && raw * f == close
    ensures lo * f <= close < hi * f
  {
    ScaleOrder(lo, raw, f);
    ScaleStrictOrder(raw, hi, f);
  }

  lemma CutReadsBack(x: int, raw: real, f: real, close: real)
    requires CutRoot(x, raw) && f > 0.0 && raw * f == close
    ensures ReadsBack(x, f, close)
  {
    ScaleWithin(Root(x) * Root(x), raw, Root(x + 1) * Root(x + 1), f, close);
  }

  /** The price the replay reads from a stored root. */
  lemma ReadBack(input: Input, t: Row)
    ensures PriceOf(input, t) == Root(t.sqrtPrice) * Root(t.sqrtPrice) * Ten(input.decimalsA - input.decimalsB)
  {
    RootMeaning(t.sqrtPrice);
    SqrtQ64ToPriceIsExact(t.sqrtPrice, Root(t.sqrtPrice));
  }

  /** The stored root x of a candle at UI factor f: 0 without a price, the largest
      u128 from 2^128 f on, and otherwise the cut root. */
  predicate StoresClose(x: int, f: real, close: real) {
    if close <= 0.0 then x == 0
    else if close >= 0x1_0000_0000_0000_0000_0000_0000_0000_0000 as real * f then
      x == 0xFFFF_FFFF_FFFF_FFFF_FFFF_FFFF_FFFF_FFFF
    else ReadsBack(x, f, close)
  }

  lemma RootFits(sqrt: real -> real, raw: real)
    requires IsSqrt(sqrt) && raw > 0.0
    ensures sqrt(raw) > 0.0 && sqrt(raw) * sqrt(raw) == raw
    ensures sqrt(raw) < TWO_POW_64 as real <==> raw < TWO_POW_128 as real
  {
    assert TWO_POW_64 as real * TWO_POW_64 as real == TWO_POW_128 as real;
    RootsOrdered(sqrt(raw), TWO_POW_64 as real, raw, TWO_POW_128 as real);
  }

  lemma ScaledOrder(raw: real, top: real, f: real, close: real)
    requires f > 0.0 && raw * f == close
    ensures raw < top <==> close < top * f
    ensures raw > 0.0 <==> close > 0.0
  {
    SignOfFactor(raw, f);
    SignOfFactor(top - raw, f);
    assert (top - raw) * f == top * f - close;
  }

  lemma RootOfCandle(sqrt: real -> real, raw: real, f: real, close: real)
    requires IsSqrt(sqrt) && f > 0.0 && raw * f == close
    ensures StoresClose(PriceToSqrtQ64(sqrt, raw), f, close)
  {
    ScaledOrder(raw, TWO_POW_128 as real, f, close);
    if raw > 0.0 {
      RootFits(sqrt, raw);
      if raw < TWO_POW_128 as real {
        StoredRootIsCut(sqrt, raw);
        CutReadsBack(PriceToSqrtQ64(sqrt, raw), raw, f, close);
      } else {
        SqrtPriceRoundTrip(sqrt, raw);
      }
    }
  }

  /** A candle's row, apart from its counters. */
  ghost predicate CarriesCandle(p: PoolParams, c: Candle, t: Row)
    requires p.tickSpacing > 0
  {
    && t.time == c.timestamp && t.liquidity == p.poolLiquidity
    && StoresClose(t.sqrtPrice, Ten(p.decimalsA - p.decimalsB), c.close)
    && (c.close > 0.0 ==> Brackets(t.tickCurrent, p.tickSpacing, Ten(p.decimalsA - p.decimalsB), c.close))
  }

  lemma RawOf(close: real, f: real) returns (raw: real)
    requires f > 0.0
    ensures raw == close / f && raw * f == close && (raw > 0.0 <==> close > 0.0)
  {
    raw := close / f;
    SignOfFactor(raw, f);
  }

  lemma RowCarries(m: RealMath, p: PoolParams, c: Candle, growth: u128)
    requires IsSqrt(m.sqrt) && IsTickOf(m.tickOf) && p.tickSpacing > 0
    ensures CarriesCandle(p, c, CandleRow(m, p, c, growth))
  {
    var f := Ten(p.decimalsA - p.decimalsB);
    var raw := RawOf(c.close, f);
    RootOfCandle(m.sqrt, raw, f, c.close);
    if c.close > 0.0 {
      RawTickMeaning(m.tickOf, raw, f, p.tickSpacing, c.close);
    }
  }

  /** For every candle list: row j + 1 carries candle j: its time, the pool's
      liquidity, on the grid the tick whose bracket holds the close, and the root of
      close / 10^(a - b) cut to 2^-64; row 0 carries candle 0, without growth. */
  lemma RowsCarryCandles(m: RealMath, candles: seq<Candle>, p: PoolParams, rows: seq<Row>, j: nat)
    requires IsSqrt(m.sqrt) && IsTickOf(m.tickOf) && p.tickSpacing > 0
    requires candles != [] && IsSynthesized(m, candles, p, rows) && j < |candles|
    ensures CarriesCandle(p, candles[j], rows[j + 1]) && CarriesCandle(p, candles[0], rows[0])
    ensures rows[0].feeGrowthA == rows[0].feeGrowthB == rows[j + 1].feeGrowthA == 0
  {
    RowCarries(m, p, candles[j], GrowthAfter(p, candles, j + 1));
    RowCarries(m, p, candles[0], 0);
  }

  /** So the replay reads each close that fits back, never higher, with its root less
      than one unit 2^-64 (in raw terms) too low. */
  lemma CloseRoundTrip(p: PoolParams, c: Candle, t: Row, input: Input)
    requires p.tickSpacing > 0 && CarriesCandle(p, c, t)
    requires input.decimalsA == p.decimalsA && input.decimalsB == p.decimalsB && c.close > 0.0
    requires c.close < TWO_POW_128 as real * Ten(p.decimalsA - p.decimalsB)
    ensures PriceOf(input, t) == Root(t.sqrtPrice) * Root(t.sqrtPrice) * Ten(input.decimalsA - input.decimalsB)
    ensures ReadsBack(t.sqrtPrice, Ten(input.decimalsA - input.decimalsB), c.close)
  {
    ReadBack(input, t);
  }

  /** SOL against USDC at 150 USD: a UI factor of 1000, so a raw price of 0.15. */
  lemma SolAt150(p: PoolParams, c: Candle, t: Row)
    requires p.tickSpacing > 0 && p.decimalsA == 9 && p.decimalsB == 6 && c.close == 150.0 && CarriesCandle(p, c, t)
    ensures CutRoot(t.sqrtPrice, 0.15) && TickPrice(t.tickCurrent) <= 0.15 < TickPrice(t.tickCurrent + p.tickSpacing)
  {
    SolUsdc();
    assert Brackets(t.tickCurrent, p.tickSpacing, 1000.0, 150.0) && ReadsBack(t.sqrtPrice, 1000.0, 150.0);
  }

  // ---------------------------------------------------------------------
  // The fee round trip in counter units
  // ---------------------------------------------------------------------

  /** A growth of g counter units, in token B. */
  lemma UnitMeaning(input: Input, g: real, v: real)
    requires v == ValueB(input, g)
    ensures v * Zeros(input.decimalsB) * TWO_POW_64 as real == g * input.positionLiquidity as real
  {
    TenIsZeros(input.decimalsB);
    var q, l := g / TWO_POW_64 as real, input.positionLiquidity as real;
    assert q * TWO_POW_64 as real == g;
    assert v * Ten(input.decimalsB) == q * l;
    ScaledDown(g, TWO_POW_64 as real, q, l, Zeros(input.decimalsB), v);
  }

  lemma ScaledGap(gap: real, lost: real, z: real, unit: real, total: real)
    requires z > 0.0 && unit > 0.0 && gap <= lost && lost * z * unit == total
    ensures gap * z * unit <= total
  {
    ScaleOrder(gap, lost, z);
    ScaleOrder(gap * z, lost * z, unit);
  }

  /** The shortfall `gap` is at most n counter units of the position's liquidity. */
  predicate WithinUnits(gap: real, n: nat, input: Input) {
    gap * Zeros(input.decimalsB) * TWO_POW_64 as real <= n as real * input.positionLiquidity as real
  }

  lemma UnitsBound(input: Input, gap: real, n: nat, lost: real)
    requires lost == ValueB(input, n as real) && gap <= lost
    ensures WithinUnits(gap, n, input)
  {
    UnitMeaning(input, n as real, lost);
    ScaledGap(gap, lost, Zeros(input.decimalsB), TWO_POW_64 as real, n as real * input.positionLiquidity as real);
  }

  /** Without saturation the replay falls short of the position's share of the pool
      fees by at most one counter unit per candle with volume. */
  lemma ShortfallInUnits(m: RealMath, candles: seq<Candle>, p: PoolParams, rows: seq<Row>, input: Input, gap: real)
    requires p.tickSpacing != 0 && candles != [] && IsSynthesized(m, candles, p, rows)
    requires p.poolLiquidity > 0 && p.feeRateBps >= 0.0 && input.decimalsB == p.decimalsB
    requires UnboundedGrowth(p, candles, |candles|) <= MAX_U128
    requires gap == ShareOfFees(p, input, candles, |candles|) - FeesAfter(input, rows, |rows|)
    ensures 0.0 <= gap && WithinUnits(gap, PositiveVolumes(candles, |candles|), input)
  {
    var n := PositiveVolumes(candles, |candles|);
    FeeRoundTrip(m, candles, p, rows, input);
    UnitsBound(input, gap, n, ValueB(input, n as real));
  }
}
