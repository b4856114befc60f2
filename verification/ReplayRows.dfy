/** What one row of a replay earns, whether it rebalances and into which range, in
    plain amounts (src/backtest/db_replay.rs:83-221). */
module ReplayRows {
  import opened Numerics
  import opened Ticks
  import opened Signal
  import opened IlLedger
  import opened DbReplay
  import opened ReplayLedger
  import opened ReplayDays

  // ---------------------------------------------------------------------
  // Decimals
  // ---------------------------------------------------------------------

  /** Powers of ten in both directions. */
  lemma TenMeaning(n: int)
    ensures Ten(0) == 1.0 && Ten(n + 1) == 10.0 * Ten(n)
  {
    if n < 0 {
      var m := Pow(10.0, -n - 1);
      var p, q := Ten(n), Ten(n + 1);
      assert q * m == 1.0 && p * (10.0 * m) == 1.0;
      SignOfFactor(q - 10.0 * p, m);
      assert (q - 10.0 * p) * m == q * m - p * (10.0 * m);
    }
  }

  /** 1 followed by n zeros. */
  function Zeros(n: nat): (r: real)
    ensures r > 0.0
  {
    if n == 0 then 1.0 else 10.0 * Zeros(n - 1)
  }

  lemma {:induction false} TenIsZeros(n: nat)
    ensures Ten(n) == Zeros(n)
  {
    TenMeaning(n - 1);
    if n > 0 {
      TenIsZeros(n - 1);
    }
  }

  /** SOL against USDC: 9 and 6 decimals. */
  lemma SolUsdc()
    ensures Ten(9 - 6) == 1000.0
  {
    TenIsZeros(3);
    assert Zeros(1) == 10.0 && Zeros(2) == 100.0 && Zeros(3) == 1000.0;
  }

  /** The price of a row: the stored root over 2^64, squared, times 10^(a - b). */
  lemma PriceMeaning(input: Input, t: Row) returns (root: real)
    ensures root * 0x1_0000_0000_0000_0000 as real == t.sqrtPrice as real
    ensures PriceOf(input, t) == root * root * Ten(input.decimalsA - input.decimalsB)
  {
    root := t.sqrtPrice as real / TWO_POW_64 as real;
    assert root * TWO_POW_64 as real == t.sqrtPrice as real;
    SqrtQ64ToPriceIsExact(t.sqrtPrice, root);
  }

  // ---------------------------------------------------------------------
  // Fees of a row
  // ---------------------------------------------------------------------

  /** Counter movement from `before` to `now`, wrapping at 2^128, for a position of
      this liquidity. */
  function Earned(before: u128, now: u128, positionLiquidity: u128): int {
    (if now >= before then now - before else now - before + TWO_POW_128) * positionLiquidity
  }

  /** `amount` tokens with these decimals are the earned movement over 2^64. */
  predicate IsEarned(amount: real, decimals: nat, before: u128, now: u128, positionLiquidity: u128) {
    amount * Zeros(decimals) * TWO_POW_64 as real == Earned(before, now, positionLiquidity) as real
  }

  lemma ScaledDown(growth: real, unit: real, g: real, l: real, z: real, amount: real)
    requires g * unit == growth && amount * z == g * l
    ensures amount * z * unit == growth * l
  {
    assert g * l * unit == (g * unit) * l;
  }

  lemma RawFeesMeaning(before: u128, now: u128, positionLiquidity: u128, decimals: nat)
    ensures IsEarned(RawFees(WrappingSub(now, before), positionLiquidity) / Ten(decimals), decimals, before, now,
                     positionLiquidity)
  {
    var growth: int := WrappingSub(now, before);
    assert growth == if now >= before then now - before else now - before + TWO_POW_128;
    TenIsZeros(decimals);
    var g, l := growth as real / TWO_POW_64 as real, positionLiquidity as real;
    var amount := RawFees(growth, positionLiquidity) / Ten(decimals);
    assert g * TWO_POW_64 as real == growth as real;
    assert amount * Zeros(decimals) == g * l;
    ScaledDown(growth as real, TWO_POW_64 as real, g, l, Zeros(decimals), amount);
    assert (growth * positionLiquidity) as real == growth as real * positionLiquidity as real;
  }

  /** Fees of one row, from amounts a and b of the tokens. */
  lemma FeeStepAmounts(input: Input, prev: Row, t: Row) returns (a: real, b: real, earned: real)
    ensures earned == FeeStep(input, prev, t)
    ensures earned == if t.liquidity > 0 then a * PriceOf(input, t) + b else 0.0
    ensures IsEarned(a, input.decimalsA, prev.feeGrowthA, t.feeGrowthA, input.positionLiquidity)
    ensures IsEarned(b, input.decimalsB, prev.feeGrowthB, t.feeGrowthB, input.positionLiquidity)
  {
    a := RawFees(WrappingSub(t.feeGrowthA, prev.feeGrowthA), input.positionLiquidity) / Ten(input.decimalsA);
    b := RawFees(WrappingSub(t.feeGrowthB, prev.feeGrowthB), input.positionLiquidity) / Ten(input.decimalsB);
    earned := FeeStep(input, prev, t);
    FeeStepIs(input, prev, t, a, b);
    RawFeesMeaning(prev.feeGrowthA, t.feeGrowthA, input.positionLiquidity, input.decimalsA);
    RawFeesMeaning(prev.feeGrowthB, t.feeGrowthB, input.positionLiquidity, input.decimalsB);
  }

  lemma FeeStepIs(input: Input, prev: Row, t: Row, a: real, b: real)
    requires a == RawFees(WrappingSub(t.feeGrowthA, prev.feeGrowthA), input.positionLiquidity) / Ten(input.decimalsA)
    requires b == RawFees(WrappingSub(t.feeGrowthB, prev.feeGrowthB), input.positionLiquidity) / Ten(input.decimalsB)
    ensures FeeStep(input, prev, t) == if t.liquidity > 0 then a * PriceOf(input, t) + b else 0.0
  {
    assert FeeA(input, prev, t) == a * PriceOf(input, t);
  }

  /** Every row after the first adds, if the pool has liquidity, the position's
      growth in token A at the row's price plus that in token B, and otherwise
      nothing; the first row adds nothing. */
  lemma RowFees(input: Input, ticks: seq<Row>, i: nat) returns (a: real, b: real, earned: real)
    requires i < |ticks|
    ensures FeesAfter(input, ticks, 0) == 0.0
    ensures FeesAfter(input, ticks, i + 1) == FeesAfter(input, ticks, i) + earned
    ensures i == 0 || ticks[i].liquidity == 0 ==> earned == 0.0
    ensures i > 0 && ticks[i].liquidity > 0 ==>
              && earned == a * PriceOf(input, ticks[i]) + b
              && IsEarned(a, input.decimalsA, ticks[i - 1].feeGrowthA, ticks[i].feeGrowthA, input.positionLiquidity)
              && IsEarned(b, input.decimalsB, ticks[i - 1].feeGrowthB, ticks[i].feeGrowthB, input.positionLiquidity)
  {
    a, b, earned := 0.0, 0.0, 0.0;
    if i > 0 {
      a, b, earned := FeeStepAmounts(input, ticks[i - 1], ticks[i]);
    }
  }

  // ---------------------------------------------------------------------
  // Rebalances and ranges
  // ---------------------------------------------------------------------

  /** The net P&L the signal sees is the one booked for the row. */
  lemma NetOfRow(m: RealMath, input: Input, ticks: seq<Row>, i: nat)
    requires input.tickSpacing != 0 && i < |ticks|
    ensures var led := LedgerAfter(m, input, ticks, i);
            led.realized + OpenIl(m, input, led.bounds, PriceOf(input, ticks[i])) == IlAfter(m, input, ticks, i + 1)
  {
    SettledRow(m, input, ticks, i);
    IlIsSumOfSegments(m, input, ticks, i + 1);
  }

  /** A row rebalances exactly when it is out of the tick bounds in force, with the
      switch on, or within the near-edge distance of one of them (or outside) while
      the net P&L booked for it reaches the minimum. */
  lemma RowRebalancesIff(m: RealMath, input: Input, ticks: seq<Row>, i: nat)
    requires input.tickSpacing != 0 && i < |ticks|
    ensures var b, cfg, tick := LedgerAfter(m, input, ticks, i).bounds, input.rebalanceCfg, ticks[i].tickCurrent;
            var net := FeesAfter(input, ticks, i + 1) + IlAfter(m, input, ticks, i + 1);
            RebalancedAt(m, input, ticks, i) <==>
            || (cfg.rebalanceOutOfRange && (tick < b.tickLower || tick > b.tickUpper))
            || (net >= cfg.minNetPnlUsd
                && (tick - b.tickLower <= cfg.nearEdgeTicks || b.tickUpper - tick <= cfg.nearEdgeTicks))
  {
    var led, fees := LedgerAfter(m, input, ticks, i), FeesAfter(input, ticks, i + 1);
    NetOfRow(m, input, ticks, i);
    FiredRow(m, input, ticks, i);
    var net := fees + led.realized + OpenIl(m, input, led.bounds, PriceOf(input, ticks[i]));
    SignalMeaning(ticks[i].tickCurrent, led.bounds.tickLower, led.bounds.tickUpper, net, input.rebalanceCfg);
  }

  lemma FiredRow(m: RealMath, input: Input, ticks: seq<Row>, i: nat)
    requires input.tickSpacing != 0 && i < |ticks|
    ensures var led := LedgerAfter(m, input, ticks, i);
            var net := FeesAfter(input, ticks, i + 1) + led.realized + OpenIl(m, input, led.bounds, PriceOf(input, ticks[i]));
            RebalancedAt(m, input, ticks, i)
            <==> ShouldRebalance(ticks[i].tickCurrent, led.bounds.tickLower, led.bounds.tickUpper, net,
                                 input.rebalanceCfg).Rebalance?
  {
  }

  /** The segment a rebalance opens: at the price, from the lower factor, but at
      least 1e-9, to the upper one. */
  lemma NextSegmentMeaning(input: Input, price: real)
    ensures var s, low := NextSegment(input, price), price * input.rangeFactorLower;
            s == Segment(price, price, if low >= 0.000000001 then low else 0.000000001, price * input.rangeFactorUpper)
  {
    assert ResetLower(price, input.rangeFactorLower) == MaxReal(price * input.rangeFactorLower, 0.000000001);
    assert ResetUpper(price, input.rangeFactorUpper) == price * input.rangeFactorUpper;
  }

  /** The segments: the first spans the given range from the entry price; each row
      moves the exit of the open one to its price; a rebalance opens the next. */
  lemma SegmentsMeaning(m: RealMath, input: Input, ticks: seq<Row>, k: nat)
    requires input.tickSpacing != 0 && k < |ticks|
    ensures Segments(m, input, ticks, 0) == [Segment(input.entryPrice, input.entryPrice, input.priceLower, input.priceUpper)]
    ensures var before, price := Segments(m, input, ticks, k), PriceOf(input, ticks[k]);
            var last := |before| - 1;
            Segments(m, input, ticks, k + 1)
            == before[..last] + [Segment(before[last].entry, price, before[last].lower, before[last].upper)]
               + (if RebalancedAt(m, input, ticks, k) then [NextSegment(input, price)] else [])
  {
    var before, price := Segments(m, input, ticks, k), PriceOf(input, ticks[k]);
    var last := |before| - 1;
    var moved := before[..last] + [Segment(before[last].entry, price, before[last].lower, before[last].upper)];
    assert Moved(before, price) == moved == moved + [];
  }

  /** The bounds in force are those of the open segment. */
  lemma BoundsInForce(m: RealMath, input: Input, ticks: seq<Row>, k: nat)
    requires input.tickSpacing != 0 && k <= |ticks|
    ensures var b, segments := LedgerAfter(m, input, ticks, k).bounds, Segments(m, input, ticks, k);
            var open := segments[|segments| - 1];
            b.entry == open.entry && b.lower == open.lower && b.upper == open.upper
  {
    LedgerAgrees(m, input, ticks, k);
  }

  /** And their ticks are the aligned ticks of these prices in raw units. */
  lemma {:induction false} BoundTicks(m: RealMath, input: Input, ticks: seq<Row>, k: nat)
    requires input.tickSpacing != 0 && k <= |ticks|
    ensures var b := LedgerAfter(m, input, ticks, k).bounds;
            && b.tickLower == PriceToTick(m.tickOf, b.lower / UiFactor(input), input.tickSpacing)
            && b.tickUpper == PriceToTick(m.tickOf, b.upper / UiFactor(input), input.tickSpacing)
  {
    if k > 0 {
      BoundTicks(m, input, ticks, k - 1);
    }
  }

  /** Tick t is on the grid and its bracket of one spacing, in UI units, holds the price. */
  predicate Brackets(t: int, spacing: int, factor: real, price: real)
    requires spacing > 0
  {
    t % spacing == 0 && TickPrice(t) * factor <= price < TickPrice(t + spacing) * factor
  }

  lemma BracketScales(lo: real, raw: real, hi: real, factor: real, price: real)
    requires lo <= raw < hi && factor > 0.0 && raw * factor == price
    ensures lo * factor <= price < hi * factor
  {
    ScaleOrder(lo, raw, factor);
    ScaleStrictOrder(raw, hi, factor);
  }

  lemma RawTickMeaning(tickOf: real -> int, raw: real, factor: real, spacing: int, price: real)
    requires IsTickOf(tickOf) && spacing > 0 && raw > 0.0 && factor > 0.0 && raw * factor == price
    ensures Brackets(PriceToTick(tickOf, raw, spacing), spacing, factor, price)
  {
    var t := PriceToTick(tickOf, raw, spacing);
    PriceToTickBrackets(tickOf, raw, spacing);
    BracketScales(TickPrice(t), raw, TickPrice(t + spacing), factor, price);
  }

  lemma UiTickMeaning(tickOf: real -> int, price: real, factor: real, spacing: int)
    requires IsTickOf(tickOf) && spacing > 0 && price > 0.0 && factor > 0.0
    ensures Brackets(PriceToTick(tickOf, price / factor, spacing), spacing, factor, price)
  {
    RawTickMeaning(tickOf, PositiveQuotient(price, factor), factor, spacing, price);
  }

  /** So each tick bound in force brackets its price bound. */
  lemma BoundsMeaning(m: RealMath, input: Input, ticks: seq<Row>, k: nat, b: Bounds)
    requires IsTickOf(m.tickOf) && input.tickSpacing > 0 && k <= |ticks|
    requires b == LedgerAfter(m, input, ticks, k).bounds && b.lower > 0.0 && b.upper > 0.0
    ensures Brackets(b.tickLower, input.tickSpacing, Ten(input.decimalsA - input.decimalsB), b.lower)
    ensures Brackets(b.tickUpper, input.tickSpacing, Ten(input.decimalsA - input.decimalsB), b.upper)
  {
    BoundTicks(m, input, ticks, k);
    UiTickMeaning(m.tickOf, b.lower, UiFactor(input), input.tickSpacing);
    UiTickMeaning(m.tickOf, b.upper, UiFactor(input), input.tickSpacing);
  }
}
