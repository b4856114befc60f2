/** The two rebalance arms of the research sweep (src/research.rs:30-35, 261-278) and
    the near-edge default of the database mode (src/main.rs:391-394). */
module ResearchArms {
  import opened Numerics
  import opened Ticks
  import opened Signal
  import opened IlLedger
  import opened DbReplay
  import opened ReplayLedger

  /** Meant to disable near-edge rebalancing. */
  const NEAR_EDGE_OFF: int := -1_000_000

  function ArmConfig(rebalance: bool): RebalanceConfig {
    RebalanceConfig(rebalance, NEAR_EDGE_OFF, 0.0)
  }

  // ---------------------------------------------------------------------
  // rebalance = true: out of range, nothing else
  // ---------------------------------------------------------------------

  lemma ActiveSignal(tick: int, lower: int, upper: int, net: real)
    ensures ShouldRebalance(tick, lower, upper, net, ArmConfig(true)).Rebalance? <==> OutsideRange(tick, lower, upper)
  {
    SignalMeaning(tick, lower, upper, net, ArmConfig(true));
  }

  /** For every input and every row: the active arm rebalances exactly on the
      rows outside the bounds in force. */
  lemma ActiveArmFiresIffOutOfRange(m: RealMath, input: Input, ticks: seq<Row>, i: nat)
    requires input.tickSpacing != 0 && input.rebalanceCfg == ArmConfig(true) && i < |ticks|
    ensures RebalancedAt(m, input, ticks, i) <==> !InBounds(LedgerAfter(m, input, ticks, i).bounds, ticks[i])
  {
    var led := LedgerAfter(m, input, ticks, i);
    var net := FeesAfter(input, ticks, i + 1) + led.realized + OpenIl(m, input, led.bounds, PriceOf(input, ticks[i]));
    ActiveSignal(ticks[i].tickCurrent, led.bounds.tickLower, led.bounds.tickUpper, net);
    RebalancedIffFires(m, input, ticks, i);
  }

  lemma RebalancedIffFires(m: RealMath, input: Input, ticks: seq<Row>, i: nat)
    requires input.tickSpacing != 0 && i < |ticks|
    ensures var led := LedgerAfter(m, input, ticks, i);
            RebalancedAt(m, input, ticks, i) <==>
            Fires(input, led.bounds, ticks[i].tickCurrent,
                  FeesAfter(input, ticks, i + 1) + led.realized + OpenIl(m, input, led.bounds, PriceOf(input, ticks[i])))
  {
  }

  lemma FactorsStraddle(price: real, factorLower: real, factorUpper: real)
    requires 0.0 < factorLower <= 1.0 <= factorUpper && price >= MIN_PRICE
    ensures 0.0 < ResetLower(price, factorLower) <= price <= ResetUpper(price, factorUpper)
  {
    ScaleOrder(factorLower, 1.0, price);
    ScaleOrder(1.0, factorUpper, price);
  }

  lemma BoundsContain(m: RealMath, input: Input, price: real, lower: real, upper: real)
    requires IsTickOf(m.tickOf) && input.tickSpacing > 0 && 0.0 < lower <= price <= upper
    ensures var b := BoundsAround(m, input, price, lower, upper);
            b.tickLower <= RawTick(m, price, UiFactor(input), input.tickSpacing) <= b.tickUpper
  {
    RawTickKeepsOrder(m, lower, price, UiFactor(input), input.tickSpacing);
    RawTickKeepsOrder(m, price, upper, UiFactor(input), input.tickSpacing);
  }

  lemma BoundsByContain(m: RealMath, input: Input, price: real, factorLower: real, factorUpper: real)
    requires IsTickOf(m.tickOf) && input.tickSpacing > 0
    requires 0.0 < factorLower <= 1.0 <= factorUpper && price >= MIN_PRICE
    ensures var b := BoundsBy(m, input, price, factorLower, factorUpper);
            b.tickLower <= RawTick(m, price, UiFactor(input), input.tickSpacing) <= b.tickUpper
  {
    FactorsStraddle(price, factorLower, factorUpper);
    BoundsContain(m, input, price, ResetLower(price, factorLower), ResetUpper(price, factorUpper));
  }

  /** The range a rebalance opens contains the aligned tick of the price it was
      opened at, whenever the factors straddle 1 and the price is at least the
      1e-9 floor of the lower bound. */
  lemma ResetContainsPrice(m: RealMath, input: Input, price: real)
    requires IsTickOf(m.tickOf) && input.tickSpacing > 0
    requires 0.0 < input.rangeFactorLower <= 1.0 <= input.rangeFactorUpper && price >= MIN_PRICE
    ensures var b := ResetAround(m, input, price);
            b.tickLower <= RawTick(m, price, UiFactor(input), input.tickSpacing) <= b.tickUpper
  {
    BoundsByContain(m, input, price, input.rangeFactorLower, input.rangeFactorUpper);
  }

  lemma RawTickKeepsOrder(m: RealMath, p: real, q: real, factor: real, spacing: int)
    requires IsTickOf(m.tickOf) && spacing > 0 && factor > 0.0 && 0.0 < p <= q
    ensures RawTick(m, p, factor, spacing) <= RawTick(m, q, factor, spacing)
  {
    RatioOrder(p, factor, q, factor);
    ScaleOrder(p, q, factor);
    SignOfFactor(p / factor, factor);
    assert p / factor * factor == p;
    PriceToTickKeepsOrder(m.tickOf, p / factor, q / factor, spacing);
  }

  /** After a rebalance on a row whose tick is the aligned tick of its price, a
      next row at the same tick does not rebalance again. */
  lemma NoSecondRebalanceAtTheSameTick(m: RealMath, input: Input, ticks: seq<Row>, i: nat)
    requires IsTickOf(m.tickOf) && input.tickSpacing > 0 && input.rebalanceCfg == ArmConfig(true)
    requires 0.0 < input.rangeFactorLower <= 1.0 <= input.rangeFactorUpper
    requires i + 1 < |ticks| && RebalancedAt(m, input, ticks, i) && PriceOf(input, ticks[i]) >= MIN_PRICE
    requires ticks[i].tickCurrent == RawTick(m, PriceOf(input, ticks[i]), UiFactor(input), input.tickSpacing)
    requires ticks[i + 1].tickCurrent == ticks[i].tickCurrent
    ensures !RebalancedAt(m, input, ticks, i + 1)
  {
    ResetContainsPrice(m, input, PriceOf(input, ticks[i]));
    ResetInForce(m, input, ticks, i);
    ActiveArmFiresIffOutOfRange(m, input, ticks, i + 1);
  }

  lemma ResetInForce(m: RealMath, input: Input, ticks: seq<Row>, i: nat)
    requires input.tickSpacing != 0 && i < |ticks| && RebalancedAt(m, input, ticks, i)
    ensures LedgerAfter(m, input, ticks, i + 1).bounds == ResetAround(m, input, PriceOf(input, ticks[i]))
  {
  }

  // ---------------------------------------------------------------------
  // rebalance = false: hold
  // ---------------------------------------------------------------------

  lemma HoldSignal(tick: int, lower: int, upper: int, net: real)
    ensures ShouldRebalance(tick, lower, upper, net, ArmConfig(false)).Rebalance?
            <==> net >= 0.0 && EdgeDistance(tick, lower, upper) <= NEAR_EDGE_OFF
  {
    SignalMeaning(tick, lower, upper, net, ArmConfig(false));
  }

  /** Net P&L at row i of a position that is simply held. */
  function HeldNet(m: RealMath, input: Input, ticks: seq<Row>, i: nat): real
    requires input.tickSpacing != 0 && i < |ticks|
  {
    FeesAfter(input, ticks, i + 1) + OpenIl(m, input, Opening(m, input).bounds, PriceOf(input, ticks[i]))
  }

  /** Row i lies a million ticks or more outside the initial range while the held
      position is not losing. */
  predicate FarOutside(m: RealMath, input: Input, ticks: seq<Row>, i: nat)
    requires input.tickSpacing != 0 && i < |ticks|
  {
    var b := Opening(m, input).bounds;
    HeldNet(m, input, ticks, i) >= 0.0 && EdgeDistance(ticks[i].tickCurrent, b.tickLower, b.tickUpper) <= NEAR_EDGE_OFF
  }

  ghost predicate NeverFarOutside(m: RealMath, input: Input, ticks: seq<Row>, k: nat)
    requires input.tickSpacing != 0 && k <= |ticks|
  {
    forall i | 0 <= i < k :: !FarOutside(m, input, ticks, i)
  }

  lemma HoldStep(m: RealMath, input: Input, ticks: seq<Row>, k: nat)
    requires input.tickSpacing != 0 && input.rebalanceCfg == ArmConfig(false) && k < |ticks|
    requires var led := LedgerAfter(m, input, ticks, k);
             led.bounds == Opening(m, input).bounds && led.realized == 0.0
    ensures RebalancedAt(m, input, ticks, k) <==> FarOutside(m, input, ticks, k)
  {
    var b := Opening(m, input).bounds;
    RebalancedIffFires(m, input, ticks, k);
    HoldSignal(ticks[k].tickCurrent, b.tickLower, b.tickUpper, HeldNet(m, input, ticks, k));
  }

  /** The opening range is still in force and nothing has been realized. */
  predicate StillOpening(m: RealMath, input: Input, led: Ledger)
    requires input.tickSpacing != 0
  {
    led.bounds == Opening(m, input).bounds && led.realized == 0.0
  }

  lemma HoldNext(m: RealMath, input: Input, ticks: seq<Row>, k: nat)
    requires input.tickSpacing != 0 && input.rebalanceCfg == ArmConfig(false) && k < |ticks|
    requires var led := LedgerAfter(m, input, ticks, k); led.rebalances == 0 ==> StillOpening(m, input, led)
    ensures var led, next := LedgerAfter(m, input, ticks, k), LedgerAfter(m, input, ticks, k + 1);
            && (next.rebalances == 0 <==> led.rebalances == 0 && !FarOutside(m, input, ticks, k))
            && (next.rebalances == 0 ==> StillOpening(m, input, next))
  {
    SettledRow(m, input, ticks, k);
    if LedgerAfter(m, input, ticks, k).rebalances == 0 {
      HoldStep(m, input, ticks, k);
    }
  }

  /** After k rows: no rebalance exactly if no row was far outside, and then the
      opening range is in force. */
  ghost predicate HeldExactly(m: RealMath, input: Input, ticks: seq<Row>, k: nat)
    requires input.tickSpacing != 0 && k <= |ticks|
  {
    var led := LedgerAfter(m, input, ticks, k);
    && (led.rebalances == 0 <==> NeverFarOutside(m, input, ticks, k))
    && (led.rebalances == 0 ==> StillOpening(m, input, led))
  }

  lemma HeldExactlyNext(m: RealMath, input: Input, ticks: seq<Row>, k: nat)
    requires input.tickSpacing != 0 && input.rebalanceCfg == ArmConfig(false) && k < |ticks|
    requires HeldExactly(m, input, ticks, k)
    ensures HeldExactly(m, input, ticks, k + 1)
  {
    HoldNext(m, input, ticks, k);
    assert NeverFarOutside(m, input, ticks, k + 1)
      <==> NeverFarOutside(m, input, ticks, k) && !FarOutside(m, input, ticks, k);
  }

  lemma {:induction false} HeldExactlyAlways(m: RealMath, input: Input, ticks: seq<Row>, k: nat)
    requires input.tickSpacing != 0 && input.rebalanceCfg == ArmConfig(false) && k <= |ticks|
    ensures HeldExactly(m, input, ticks, k)
  {
    if k > 0 {
      HeldExactlyAlways(m, input, ticks, k - 1);
      HeldExactlyNext(m, input, ticks, k - 1);
    }
  }

  /** The holding arm never rebalances exactly when no row is that far outside;
      then the range and the realized IL stay as they were. */
  lemma HoldArmIff(m: RealMath, input: Input, ticks: seq<Row>, k: nat)
    requires input.tickSpacing != 0 && input.rebalanceCfg == ArmConfig(false) && k <= |ticks|
    ensures var led := LedgerAfter(m, input, ticks, k);
            && (led.rebalances == 0 <==> NeverFarOutside(m, input, ticks, k))
            && (led.rebalances == 0 ==> StillOpening(m, input, led))
  {
    HeldExactlyAlways(m, input, ticks, k);
  }

  /** With all ticks and the initial bounds on chain the holding arm holds. */
  lemma HoldArmHolds(m: RealMath, input: Input, ticks: seq<Row>)
    requires input.tickSpacing != 0 && input.rebalanceCfg == ArmConfig(false)
    requires OnChain(Opening(m, input).bounds.tickLower) && OnChain(Opening(m, input).bounds.tickUpper)
    requires forall i | 0 <= i < |ticks| :: OnChain(ticks[i].tickCurrent)
    ensures GroupByDay(m, input, ticks).totalRebalances == 0
  {
    HoldArmIff(m, input, ticks, |ticks|);
  }

  // ---------------------------------------------------------------------
  // An off-chain range on which the holding arm does rebalance
  // ---------------------------------------------------------------------

  lemma TickOfTickPrice(tickOf: real -> int, t: int)
    requires IsTickOf(tickOf)
    ensures tickOf(TickPrice(t)) == t
  {
    var u := tickOf(TickPrice(t));
    if u < t && u + 1 < t {
      TickPriceOrder(u + 1, t);
    } else if t < u {
      TickPriceOrder(t, u);
    }
  }

  /** A range from tick t on, entered at price 1, spacing 1. */
  function OneTickInput(t: int, config: RebalanceConfig): Input {
    Input(1000.0, 1.0, TickPrice(t), TickPrice(t + 1), 1, 1, 0, 0, config, 0.95, 1.05)
  }

  /** One row at price 1. */
  const ROW_AT_ONE := Row(0, 0, TWO_POW_64, 1, 0, 0)

  lemma PriceIsOne(t: int, config: RebalanceConfig)
    ensures UiFactor(OneTickInput(t, config)) == 1.0 && PriceOf(OneTickInput(t, config), ROW_AT_ONE) == 1.0
  {
    SqrtQ64ToPriceIsExact(TWO_POW_64, 1.0);
  }

  lemma OneTickBounds(m: RealMath, t: int, config: RebalanceConfig)
    requires IsTickOf(m.tickOf)
    ensures var b := Opening(m, OneTickInput(t, config)).bounds; b.tickLower == t && b.tickUpper == t + 1
  {
    PriceIsOne(t, config);
    TickOfTickPrice(m.tickOf, t);
    TickOfTickPrice(m.tickOf, t + 1);
    assert TickPrice(t) / 1.0 == TickPrice(t) && TickPrice(t + 1) / 1.0 == TickPrice(t + 1);
  }

  lemma NothingEarnedYet(m: RealMath, t: int, config: RebalanceConfig)
    ensures HeldNet(m, OneTickInput(t, config), [ROW_AT_ONE], 0) == 0.0
  {
    PriceIsOne(t, config);
    NoIlAtEntry(m.sqrt, 1.0, TickPrice(t), TickPrice(t + 1));
  }

  /** The premise is needed: a range opened a million ticks or more above the
      price, which the code accepts, rebalances on the first row. */
  lemma HoldArmCanRebalance(m: RealMath, t: int)
    requires IsTickOf(m.tickOf) && t >= -NEAR_EDGE_OFF
    ensures GroupByDay(m, OneTickInput(t, ArmConfig(false)), [ROW_AT_ONE]).totalRebalances > 0
  {
    var input, ticks := OneTickInput(t, ArmConfig(false)), [ROW_AT_ONE];
    OneTickBounds(m, t, ArmConfig(false));
    NothingEarnedYet(m, t, ArmConfig(false));
    assert FarOutside(m, input, ticks, 0);
    HoldArmIff(m, input, ticks, 1);
  }

  // ---------------------------------------------------------------------
  // Near-edge distance 0 in the database mode
  // ---------------------------------------------------------------------

  /** The configuration of the database mode with its default near-edge distance,
      which its option calls "off". */
  function ZeroEdge(rebalance: bool): RebalanceConfig {
    RebalanceConfig(rebalance, 0, 0.0)
  }

  /** Net P&L the signal sees at row i. */
  function NetSeen(m: RealMath, input: Input, ticks: seq<Row>, i: nat): real
    requires input.tickSpacing != 0 && i < |ticks|
  {
    var led := LedgerAfter(m, input, ticks, i);
    FeesAfter(input, ticks, i + 1) + led.realized + OpenIl(m, input, led.bounds, PriceOf(input, ticks[i]))
  }

  /** Distance of row i to the closer bound in force. */
  function RowDistance(m: RealMath, input: Input, ticks: seq<Row>, i: nat): int
    requires input.tickSpacing != 0 && i < |ticks|
  {
    var b := LedgerAfter(m, input, ticks, i).bounds;
    EdgeDistance(ticks[i].tickCurrent, b.tickLower, b.tickUpper)
  }

  /** For every replay and row: distance 0 is off, that is the row rebalances just
      when it is out of range with the switch on, if and only if the P&L is negative,
      or the tick is strictly inside, or it is outside with the switch on. */
  lemma ZeroEdgeIsOffIff(m: RealMath, input: Input, ticks: seq<Row>, i: nat)
    requires input.tickSpacing != 0 && i < |ticks|
    requires input.rebalanceCfg == ZeroEdge(input.rebalanceCfg.rebalanceOutOfRange)
    ensures var on, d := input.rebalanceCfg.rebalanceOutOfRange, RowDistance(m, input, ticks, i);
            (RebalancedAt(m, input, ticks, i) <==> on && !InBounds(LedgerAfter(m, input, ticks, i).bounds, ticks[i]))
            <==> NetSeen(m, input, ticks, i) < 0.0 || d > 0 || (on && d < 0)
  {
    var b := LedgerAfter(m, input, ticks, i).bounds;
    RebalancedIffFires(m, input, ticks, i);
    SignalMeaning(ticks[i].tickCurrent, b.tickLower, b.tickUpper, NetSeen(m, input, ticks, i), input.rebalanceCfg);
  }

  /** Price and lower bound both on tick 0: the first row rebalances, even with the
      switch off. */
  lemma ZeroEdgeRebalances(m: RealMath, rebalance: bool)
    requires IsTickOf(m.tickOf)
    ensures GroupByDay(m, OneTickInput(0, ZeroEdge(rebalance)), [ROW_AT_ONE]).totalRebalances > 0
  {
    var input, ticks := OneTickInput(0, ZeroEdge(rebalance)), [ROW_AT_ONE];
    OneTickBounds(m, 0, ZeroEdge(rebalance));
    NothingEarnedYet(m, 0, ZeroEdge(rebalance));
    assert NetSeen(m, input, ticks, 0) == 0.0 && RowDistance(m, input, ticks, 0) == 0;
    ZeroEdgeIsOffIff(m, input, ticks, 0);
    assert RebalancedAt(m, input, ticks, 0);
  }
}
