/** The database replay (src/backtest/db_replay.rs): one pass over the ticks,
    specified as a ledger per tick and a grouping of the ticks by day. */
module DbReplay {
  import opened Numerics
  import opened Ticks
  import opened Signal
  import opened ImpermanentLoss
  import opened DayRollup

  /** A `pool_ticks` row; time in seconds. */
  datatype Row = Row(time: int, tickCurrent: int, sqrtPrice: u128, liquidity: u128, feeGrowthA: u128, feeGrowthB: u128)

  datatype Input = Input(
    initialValueUsd: real,
    entryPrice: real,
    priceLower: real,
    priceUpper: real,
    tickSpacing: int,
    positionLiquidity: u128,
    decimalsA: nat,
    decimalsB: nat,
    rebalanceCfg: RebalanceConfig,
    rangeFactorLower: real,
    rangeFactorUpper: real)

  datatype BacktestResult = BacktestResult(
    days: seq<DayResult>,
    totalFees: real,
    totalIl: real,
    netPnl: real,
    totalRebalances: nat,
    daysInRange: nat,
    feeApyPct: real)

  datatype Outcome = Replayed(result: BacktestResult) | EmptyTickStream

  /** The real functions the code takes from its floating-point library. */
  datatype RealMath = RealMath(sqrt: real -> real, tickOf: real -> int)

  const SECONDS_PER_DAY := 86400

  const MIN_PRICE := 0.000000001

  /** Calendar day (UTC) of a row. */
  function Date(t: Row): int {
    t.time / SECONDS_PER_DAY
  }

  /** 10^n for an n of either sign. */
  function Ten(n: int): (r: real)
    ensures r > 0.0
  {
    if n >= 0 then Pow(10.0, n) else PositiveQuotient(1.0, Pow(10.0, -n))
  }

  function UiFactor(input: Input): (r: real)
    ensures r > 0.0
  {
    Ten(input.decimalsA - input.decimalsB)
  }

  /** Q64.64 square root to price, integer and fractional halves apart. */
  function SqrtQ64ToPrice(sqrtPrice: u128): real {
    var s := (sqrtPrice / TWO_POW_64) as real + (sqrtPrice % TWO_POW_64) as real / TWO_POW_64 as real;
    s * s
  }

  /** Splitting at the binary point loses nothing: the price is (x / 2^64)^2. */
  lemma SqrtQ64ToPriceIsExact(sqrtPrice: u128, s: real)
    requires s * TWO_POW_64 as real == sqrtPrice as real
    ensures SqrtQ64ToPrice(sqrtPrice) == s * s
  {
    var hi, lo := sqrtPrice / TWO_POW_64, sqrtPrice % TWO_POW_64;
    var fraction := lo as real / TWO_POW_64 as real;
    assert fraction * TWO_POW_64 as real == lo as real;
    assert sqrtPrice as real == hi as real * TWO_POW_64 as real + lo as real by {
      assert sqrtPrice == hi * TWO_POW_64 + lo;
    }
    SignOfFactor(s - (hi as real + fraction), TWO_POW_64 as real);
  }

  function PriceOf(input: Input, t: Row): real {
    SqrtQ64ToPrice(t.sqrtPrice) * UiFactor(input)
  }

  /** Fees in raw token units for a growth of the per-liquidity counter. */
  function RawFees(growth: int, positionLiquidity: int): real {
    growth as real / TWO_POW_64 as real * positionLiquidity as real
  }

  function FeeA(input: Input, prev: Row, t: Row): real {
    RawFees(WrappingSub(t.feeGrowthA, prev.feeGrowthA), input.positionLiquidity) / Ten(input.decimalsA) * PriceOf(input, t)
  }

  function FeeB(input: Input, prev: Row, t: Row): real {
    RawFees(WrappingSub(t.feeGrowthB, prev.feeGrowthB), input.positionLiquidity) / Ten(input.decimalsB)
  }

  /** Fees of one row: nothing while the pool has no liquidity. */
  function FeeStep(input: Input, prev: Row, t: Row): real {
    if t.liquidity > 0 then FeeA(input, prev, t) + FeeB(input, prev, t) else 0.0
  }

  // ---------------------------------------------------------------------
  // The ledger, tick by tick
  // ---------------------------------------------------------------------

  /** The range in force, in price and in tick terms. */
  datatype Bounds = Bounds(entry: real, lower: real, upper: real, tickLower: int, tickUpper: int)

  datatype Ledger = Ledger(fees: real, realized: real, unrealized: real, bounds: Bounds, rebalances: nat)

  predicate InBounds(b: Bounds, t: Row) {
    b.tickLower <= t.tickCurrent <= b.tickUpper
  }

  function Il(led: Ledger): real {
    led.realized + led.unrealized
  }

  /** Tick bounds live in the raw price domain. */
  function BoundsAround(m: RealMath, input: Input, entry: real, lower: real, upper: real): Bounds
    requires input.tickSpacing != 0
  {
    Bounds(entry, lower, upper, RawTick(m, lower, UiFactor(input), input.tickSpacing),
           RawTick(m, upper, UiFactor(input), input.tickSpacing))
  }

  function RawTick(m: RealMath, price: real, uiFactor: real, spacing: int): int
    requires uiFactor > 0.0 && spacing != 0
  {
    PriceToTick(m.tickOf, price / uiFactor, spacing)
  }

  function Opening(m: RealMath, input: Input): Ledger
    requires input.tickSpacing != 0
  {
    Ledger(0.0, 0.0, 0.0, BoundsAround(m, input, input.entryPrice, input.priceLower, input.priceUpper), 0)
  }

  /** The range opened around a price by a rebalance. */
  function ResetAround(m: RealMath, input: Input, price: real): Bounds
    requires input.tickSpacing != 0
  {
    BoundsBy(m, input, price, input.rangeFactorLower, input.rangeFactorUpper)
  }

  function BoundsBy(m: RealMath, input: Input, price: real, factorLower: real, factorUpper: real): Bounds
    requires input.tickSpacing != 0
  {
    BoundsAround(m, input, price, ResetLower(price, factorLower), ResetUpper(price, factorUpper))
  }

  function ResetLower(price: real, factor: real): real {
    MaxReal(price * factor, MIN_PRICE)
  }

  function ResetUpper(price: real, factor: real): real {
    price * factor
  }

  /** IL of holding the range in force up to price. */
  function OpenIl(m: RealMath, input: Input, b: Bounds, price: real): real {
    IlUsd(ComputeIl(m.sqrt, b.entry, price, b.lower, b.upper), input.initialValueUsd)
  }

  predicate Fires(input: Input, b: Bounds, tick: int, net: real) {
    ShouldRebalance(tick, b.tickLower, b.tickUpper, net, input.rebalanceCfg).Rebalance?
  }

  /** Book one row's fees and open IL; a rebalance realizes the IL and resets the
      range. */
  function Book(led: Ledger, fees: real, open: real, fires: bool, reset: Bounds): Ledger {
    if fires then Ledger(fees, led.realized + open, 0.0, reset, led.rebalances + 1)
    else Ledger(fees, led.realized, open, led.bounds, led.rebalances)
  }

  /** Settle one observation after its fees. */
  function Settle(m: RealMath, input: Input, led: Ledger, fees: real, t: Row): Ledger
    requires input.tickSpacing != 0
  {
    var price := PriceOf(input, t);
    var open := OpenIl(m, input, led.bounds, price);
    Book(led, fees, open, Fires(input, led.bounds, t.tickCurrent, fees + led.realized + open),
         ResetAround(m, input, price))
  }

  /** Fees over the first k rows; the first row only sets the reference. */
  function FeesAfter(input: Input, ticks: seq<Row>, k: nat): real
    requires k <= |ticks|
  {
    if k <= 1 then 0.0 else FeesAfter(input, ticks, k - 1) + FeeStep(input, ticks[k - 2], ticks[k - 1])
  }

  /** The ledger after the first k rows. */
  function LedgerAfter(m: RealMath, input: Input, ticks: seq<Row>, k: nat): (led: Ledger)
    requires input.tickSpacing != 0 && k <= |ticks|
    ensures led.fees == FeesAfter(input, ticks, k)
  {
    if k == 0 then Opening(m, input)
    else Settle(m, input, LedgerAfter(m, input, ticks, k - 1), FeesAfter(input, ticks, k), ticks[k - 1])
  }

  // ---------------------------------------------------------------------
  // The result by grouping
  // ---------------------------------------------------------------------

  /** Row i as its day sees it: in range by the bounds in force when it arrives,
      fees and IL as booked once it is settled. */
  function ObservationAt(m: RealMath, input: Input, ticks: seq<Row>, i: nat): Observation
    requires input.tickSpacing != 0 && i < |ticks|
  {
    var b := LedgerAfter(m, input, ticks, i).bounds;
    var led := LedgerAfter(m, input, ticks, i + 1);
    Observation(Date(ticks[i]), PriceOf(input, ticks[i]), InBounds(b, ticks[i]), led.fees, Il(led))
  }

  function Observations(m: RealMath, input: Input, ticks: seq<Row>): (obs: seq<Observation>)
    requires input.tickSpacing != 0
    ensures |obs| == |ticks|
    ensures forall i | 0 <= i < |obs| :: obs[i] == ObservationAt(m, input, ticks, i)
  {
    seq(|ticks|, i requires 0 <= i < |ticks| => ObservationAt(m, input, ticks, i))
  }

  function FeeApyPct(fees: real, initialValueUsd: real, totalDays: nat): real {
    if totalDays > 0 && initialValueUsd > 0.0 then
      fees / initialValueUsd * (365.0 / totalDays as real) * 100.0
    else 0.0
  }

  function Summary(input: Input, led: Ledger, days: seq<DayResult>, daysInRange: nat): BacktestResult {
    BacktestResult(days, led.fees, Il(led), led.fees + Il(led), led.rebalances, daysInRange,
                   FeeApyPct(led.fees, input.initialValueUsd, |days|))
  }

  /** The whole replay by grouping: the reference the single pass refines. */
  function GroupByDay(m: RealMath, input: Input, ticks: seq<Row>): BacktestResult
    requires input.tickSpacing != 0
  {
    var days := Days(Observations(m, input, ticks));
    Summary(input, LedgerAfter(m, input, ticks, |ticks|), days, CountInRange(days))
  }

  // ---------------------------------------------------------------------
  // The single pass
  // ---------------------------------------------------------------------

  /** IL, signal and range reset of one row. */
  method ObserveRow(m: RealMath, input: Input, led: Ledger, t: Row, fees: real) returns (next: Ledger)
    requires input.tickSpacing != 0
    ensures next == Settle(m, input, led, fees, t)
  {
    var price := PriceOf(input, t);
    var realizedIl, unrealizedIl := led.realized, OpenIl(m, input, led.bounds, price);
    var bounds, totalRebalances := led.bounds, led.rebalances;
    var netPnl := fees + realizedIl + unrealizedIl;
    var signal := ShouldRebalance(t.tickCurrent, bounds.tickLower, bounds.tickUpper, netPnl, input.rebalanceCfg);
    if signal.Rebalance? {
      totalRebalances := totalRebalances + 1;
      realizedIl := realizedIl + unrealizedIl;
      unrealizedIl := 0.0;
      bounds := ResetAround(m, input, price);
    }
    next := Ledger(fees, realizedIl, unrealizedIl, bounds, totalRebalances);
  }

  /** Fee accrual, then IL and signal, of row i. */
  method SettleRow(m: RealMath, input: Input, ticks: seq<Row>, i: nat, led: Ledger) returns (next: Ledger)
    requires input.tickSpacing != 0 && i < |ticks| && led == LedgerAfter(m, input, ticks, i)
    ensures next == LedgerAfter(m, input, ticks, i + 1)
  {
    var fees := led.fees;
    if i > 0 {
      fees := fees + FeeStep(input, ticks[i - 1], ticks[i]);
    }
    next := ObserveRow(m, input, led, ticks[i], fees);
  }

  ghost predicate ObservedBy(m: RealMath, input: Input, ticks: seq<Row>, obs: seq<Observation>, i: nat)
    requires input.tickSpacing != 0 && i < |ticks| == |obs|
  {
    obs[i] == ObservationAt(m, input, ticks, i)
  }

  /** Day boundary, range flag and latest observation of row i, which takes the
      ledger from `led` to `next`. */
  method GroupSettled(m: RealMath, input: Input, ticks: seq<Row>, ghost obs: seq<Observation>, i: nat,
                      led: Ledger, next: Ledger, latest: Latest, rollup: Rollup)
    returns (latest': Latest, rollup': Rollup)
    requires input.tickSpacing != 0 && i < |ticks| == |obs| && ObservedBy(m, input, ticks, obs, i)
    requires led == LedgerAfter(m, input, ticks, i) && next == LedgerAfter(m, input, ticks, i + 1)
    requires Grouped(obs, i, Date(ticks[0]), latest, rollup)
    ensures Grouped(obs, i + 1, Date(ticks[0]), latest', rollup')
  {
    latest', rollup' := GroupRow(obs, i, Date(ticks[0]), latest, rollup,
                                 Date(ticks[i]), PriceOf(input, ticks[i]), InBounds(led.bounds, ticks[i]),
                                 next.fees, Il(next));
  }

  /** `leds` and `obs` are the ledger before each row and what each row shows. */
  ghost predicate Traced(m: RealMath, input: Input, ticks: seq<Row>, leds: seq<Ledger>, obs: seq<Observation>)
    requires input.tickSpacing != 0
  {
    && |leds| == |ticks| + 1 && |obs| == |ticks|
    && (forall i | 0 <= i <= |ticks| :: LedgerIs(m, input, ticks, leds, i))
    && (forall i | 0 <= i < |ticks| :: ObservedBy(m, input, ticks, obs, i))
  }

  ghost predicate LedgerIs(m: RealMath, input: Input, ticks: seq<Row>, leds: seq<Ledger>, i: nat)
    requires input.tickSpacing != 0 && i <= |ticks| < |leds|
  {
    leds[i] == LedgerAfter(m, input, ticks, i)
  }

  /** Before the first row. */
  method StartReplay(m: RealMath, input: Input, ticks: seq<Row>, ghost leds: seq<Ledger>, ghost obs: seq<Observation>)
    returns (led: Ledger, latest: Latest, rollup: Rollup)
    requires input.tickSpacing != 0 && ticks != [] && Traced(m, input, ticks, leds, obs)
    ensures led == leds[0] && Grouped(obs, 0, Date(ticks[0]), latest, rollup)
  {
    led := Opening(m, input);
    assert LedgerIs(m, input, ticks, leds, 0);
    latest, rollup := StartGrouping(obs, Date(ticks[0]), PriceOf(input, ticks[0]));
  }

  /** One iteration. */
  method ReplayRow(m: RealMath, input: Input, ticks: seq<Row>, ghost leds: seq<Ledger>, ghost obs: seq<Observation>,
                   i: nat, led: Ledger, latest: Latest, rollup: Rollup)
    returns (led': Ledger, latest': Latest, rollup': Rollup)
    requires input.tickSpacing != 0 && i < |ticks| && Traced(m, input, ticks, leds, obs)
    requires led == leds[i] && Grouped(obs, i, Date(ticks[0]), latest, rollup)
    ensures led' == leds[i + 1] && Grouped(obs, i + 1, Date(ticks[0]), latest', rollup')
  {
    assert LedgerIs(m, input, ticks, leds, i) && LedgerIs(m, input, ticks, leds, i + 1);
    led' := SettleRow(m, input, ticks, i, led);
    latest', rollup' := GroupSettled(m, input, ticks, obs, i, led, led', latest, rollup);
  }

  /** The loop over the rows. */
  method ReplayRows(m: RealMath, input: Input, ticks: seq<Row>, ghost leds: seq<Ledger>, ghost obs: seq<Observation>)
    returns (led: Ledger, latest: Latest, rollup: Rollup)
    requires input.tickSpacing != 0 && ticks != [] && Traced(m, input, ticks, leds, obs)
    ensures led == leds[|ticks|] && Grouped(obs, |ticks|, Date(ticks[0]), latest, rollup)
  {
    led, latest, rollup := StartReplay(m, input, ticks, leds, obs);
    for i := 0 to |ticks|
      invariant led == leds[i] && Grouped(obs, i, Date(ticks[0]), latest, rollup)
    {
      led, latest, rollup := ReplayRow(m, input, ticks, leds, obs, i, led, latest, rollup);
    }
  }

  /** `run_db_backtest`: one pass, no lookahead. */
  method RunDbBacktest(m: RealMath, input: Input, ticks: seq<Row>) returns (outcome: Outcome)
    requires ticks == [] || input.tickSpacing != 0
    ensures outcome == if ticks == [] then EmptyTickStream else Replayed(GroupByDay(m, input, ticks))
  {
    if |ticks| == 0 {
      return EmptyTickStream;
    }
    ghost var leds := seq(|ticks| + 1, k requires 0 <= k <= |ticks| => LedgerAfter(m, input, ticks, k));
    ghost var obs := Observations(m, input, ticks);
    var led, latest, rollup := ReplayRows(m, input, ticks, leds, obs);
    var days, daysInRange := FlushLast(obs, Date(ticks[0]), latest, rollup);
    outcome := Replayed(Summary(input, led, days, daysInRange));
  }
}
