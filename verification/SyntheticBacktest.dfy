/** The synthetic engine (src/backtest/mod.rs) over an arbitrary price path: each
    day's price is the last one times an arbitrary factor. */
module SyntheticBacktest {
  import opened Numerics
  import opened Ticks
  import opened Signal
  import opened ImpermanentLoss
  import opened IlLedger
  import opened DayRollup
  import opened DbReplay

  datatype Params = Params(
    entryPrice: real,
    priceLower: real,
    priceUpper: real,
    feeRateBps: real,
    initialValueUsd: real,
    dailyVolumeUsd: real,
    positionVolumeShare: real,
    tickSpacing: int,
    strategyRebalance: bool)

  const PRICE_FLOOR := 0.000001

  /** Ticks are computed, and the spacing divided by, only when rebalancing. */
  predicate Runnable(p: Params) {
    p.strategyRebalance ==> p.tickSpacing != 0
  }

  /** The engine's variables between two days. */
  datatype Sim = Sim(price: real, entry: real, lower: real, upper: real, fees: real, realized: real, rebalances: nat)

  function Start(p: Params): Sim {
    Sim(p.entryPrice, p.entryPrice, p.priceLower, p.priceUpper, 0.0, 0.0, 0)
  }

  function NextPrice(price: real, factor: real): real {
    MaxReal(price * factor, PRICE_FLOOR)
  }

  predicate InRange(sim: Sim, price: real) {
    sim.lower <= price <= sim.upper
  }

  function DailyFee(p: Params): real {
    p.dailyVolumeUsd * p.positionVolumeShare * (p.feeRateBps / 10000.0)
  }

  function OpenIl(m: RealMath, p: Params, sim: Sim, price: real): real {
    IlUsd(ComputeIl(m.sqrt, sim.entry, price, sim.lower, sim.upper), p.initialValueUsd)
  }

  predicate Fires(m: RealMath, p: Params, sim: Sim, price: real, net: real)
    requires Runnable(p)
  {
    p.strategyRebalance
    && ShouldRebalance(PriceToTick(m.tickOf, price, p.tickSpacing), PriceToTick(m.tickOf, sim.lower, p.tickSpacing),
                       PriceToTick(m.tickOf, sim.upper, p.tickSpacing), net,
                       RebalanceConfig(p.strategyRebalance, 0, 0.0)).Rebalance?
  }

  /** Same width around the price, floored at 1e-6. */
  function Recentred(sim: Sim, price: real): Sim {
    var half := (sim.upper - sim.lower) / 2.0;
    sim.(entry := price, lower := MaxReal(price - half, PRICE_FLOOR), upper := price + half)
  }

  /** One day at a known price: fees if in range, IL, then perhaps a rebalance. */
  function Settled(m: RealMath, p: Params, sim: Sim, price: real): Sim
    requires Runnable(p)
  {
    var fees := sim.fees + (if InRange(sim, price) then DailyFee(p) else 0.0);
    var open := OpenIl(m, p, sim, price);
    var moved := sim.(price := price, fees := fees);
    if Fires(m, p, sim, price, fees + (sim.realized + open)) then
      Recentred(moved, price).(realized := sim.realized + open, rebalances := sim.rebalances + 1)
    else moved
  }

  /** The engine after k days of the path. */
  function SimAfter(m: RealMath, p: Params, path: seq<real>, k: nat): Sim
    requires Runnable(p) && k <= |path|
  {
    if k == 0 then Start(p)
    else
      var sim := SimAfter(m, p, path, k - 1);
      Settled(m, p, sim, NextPrice(sim.price, path[k - 1]))
  }

  /** The row reported for the day that starts in `sim`. */
  function Report(m: RealMath, p: Params, sim: Sim, price: real, day: nat): DayResult
    requires Runnable(p)
  {
    var fees := Settled(m, p, sim, price).fees;
    var il := sim.realized + OpenIl(m, p, sim, price);
    DayResult(day, price, InRange(sim, price), fees, il, fees + il)
  }

  function ReportAt(m: RealMath, p: Params, path: seq<real>, k: nat): DayResult
    requires Runnable(p) && k < |path|
  {
    var sim := SimAfter(m, p, path, k);
    Report(m, p, sim, NextPrice(sim.price, path[k]), k + 1)
  }

  /** The rows of the first k days. */
  function Reports(m: RealMath, p: Params, path: seq<real>, k: nat): (days: seq<DayResult>)
    requires Runnable(p) && k <= |path|
    ensures |days| == k
  {
    if k == 0 then [] else Reports(m, p, path, k - 1) + [ReportAt(m, p, path, k - 1)]
  }

  function LastFees(days: seq<DayResult>): real {
    if days == [] then 0.0 else days[|days| - 1].fees
  }

  function LastIl(days: seq<DayResult>): real {
    if days == [] then 0.0 else days[|days| - 1].il
  }

  /** One day of the loop. */
  method SimulateDay(m: RealMath, p: Params, sim: Sim, factor: real, day: nat) returns (next: Sim, row: DayResult)
    requires Runnable(p)
    ensures next == Settled(m, p, sim, NextPrice(sim.price, factor))
    ensures row == Report(m, p, sim, NextPrice(sim.price, factor), day)
  {
    var price := NextPrice(sim.price, factor);
    var inRange := InRange(sim, price);
    var feesToday := if inRange then DailyFee(p) else 0.0;
    var cumulativeFees := sim.fees + feesToday;
    var unrealizedIl := OpenIl(m, p, sim, price);
    var ilToDate := sim.realized + unrealizedIl;
    var netPnl := cumulativeFees + ilToDate;
    next := sim.(price := price, fees := cumulativeFees);
    if Fires(m, p, sim, price, netPnl) {
      next := Recentred(next, price).(realized := sim.realized + unrealizedIl, rebalances := sim.rebalances + 1);
    }
    row := DayResult(day, price, inRange, cumulativeFees, ilToDate, netPnl);
  }

  /** The loop over the days. */
  method SimulateDays(m: RealMath, p: Params, path: seq<real>)
    returns (days: seq<DayResult>, rebalances: nat, daysInRange: nat)
    requires Runnable(p)
    ensures days == Reports(m, p, path, |path|) && daysInRange == CountInRange(days)
    ensures rebalances == SimAfter(m, p, path, |path|).rebalances
  {
    var sim := Start(p);
    daysInRange, days := 0, [];
    for i := 0 to |path|
      invariant sim == SimAfter(m, p, path, i)
      invariant days == Reports(m, p, path, i)
      invariant daysInRange == CountInRange(days)
    {
      var next, row := SimulateDay(m, p, sim, path[i], i + 1);
      if row.inRange {
        daysInRange := daysInRange + 1;
      }
      days := days + [row];
      sim := next;
    }
    rebalances := sim.rebalances;
  }

  function Summarised(p: Params, days: seq<DayResult>, rebalances: nat): BacktestResult {
    BacktestResult(days, LastFees(days), LastIl(days), LastFees(days) + LastIl(days), rebalances, CountInRange(days),
                   FeeApyPct(LastFees(days), p.initialValueUsd, |days|))
  }

  /** `run` with the random factors as an argument. */
  method Simulate(m: RealMath, p: Params, path: seq<real>) returns (result: BacktestResult)
    requires Runnable(p)
    ensures result == Summarised(p, Reports(m, p, path, |path|), SimAfter(m, p, path, |path|).rebalances)
  {
    var days, rebalances, daysInRange := SimulateDays(m, p, path);
    result := BacktestResult(days, LastFees(days), LastIl(days), LastFees(days) + LastIl(days), rebalances, daysInRange,
                             FeeApyPct(LastFees(days), p.initialValueUsd, |days|));
  }

  // ---------------------------------------------------------------------
  // The IL ledger
  // ---------------------------------------------------------------------

  function SegmentOf(sim: Sim, price: real): Segment {
    Segment(sim.entry, price, sim.lower, sim.upper)
  }

  predicate RebalancedOn(m: RealMath, p: Params, path: seq<real>, k: nat)
    requires Runnable(p) && k < |path|
  {
    SimAfter(m, p, path, k + 1).rebalances != SimAfter(m, p, path, k).rebalances
  }

  /** The segments after k days, the open one last. */
  function Segments(m: RealMath, p: Params, path: seq<real>, k: nat): (segments: seq<Segment>)
    requires Runnable(p) && k <= |path|
    ensures segments != []
  {
    var sim := SimAfter(m, p, path, k);
    if k == 0 then [SegmentOf(sim, sim.price)]
    else
      var moved := Moved(Segments(m, p, path, k - 1), sim.price);
      if RebalancedOn(m, p, path, k - 1) then moved + [SegmentOf(sim, sim.price)] else moved
  }

  /** The books between two days. */
  predicate DayBooked(m: RealMath, p: Params, sim: Sim, next: Sim, rebalanced: bool) {
    var open := OpenIl(m, p, sim, next.price);
    if rebalanced then
      next.rebalances == sim.rebalances + 1 && next.realized == sim.realized + open && next.entry == next.price
    else
      next == sim.(price := next.price, fees := next.fees)
  }

  /** What one day does to the range and the books. */
  lemma SettledDay(m: RealMath, p: Params, path: seq<real>, k: nat)
    requires Runnable(p) && k < |path|
    ensures var sim, next := SimAfter(m, p, path, k), SimAfter(m, p, path, k + 1);
            && next.price == NextPrice(sim.price, path[k]) >= PRICE_FLOOR
            && ReportAt(m, p, path, k).il == sim.realized + OpenIl(m, p, sim, next.price)
            && DayBooked(m, p, sim, next, RebalancedOn(m, p, path, k))
            && (RebalancedOn(m, p, path, k) ==>
                  next.lower == Recentred(sim, next.price).lower && next.upper == Recentred(sim, next.price).upper)
  {
  }

  lemma OpenSegmentIl(m: RealMath, p: Params, sim: Sim, price: real)
    ensures SegmentIl(m.sqrt, p.initialValueUsd, SegmentOf(sim, price)) == OpenIl(m, p, sim, price)
  {
  }

  ghost predicate Agrees(m: RealMath, p: Params, sim: Sim, segments: seq<Segment>) {
    && segments != [] && segments[|segments| - 1] == SegmentOf(sim, segments[|segments| - 1].exit)
    && Books(m.sqrt, p.initialValueUsd, sim.realized,
             SegmentIl(m.sqrt, p.initialValueUsd, segments[|segments| - 1]), sim.rebalances, segments)
  }

  lemma {:induction false} SimAgrees(m: RealMath, p: Params, path: seq<real>, k: nat)
    requires Runnable(p) && k <= |path|
    ensures Agrees(m, p, SimAfter(m, p, path, k), Segments(m, p, path, k))
  {
    if k == 0 {
      OpeningBooks(m.sqrt, p.initialValueUsd, Segments(m, p, path, 0)[0]);
    } else {
      SimAgrees(m, p, path, k - 1);
      SettledDay(m, p, path, k - 1);
      NextAgrees(m, p, SimAfter(m, p, path, k - 1), SimAfter(m, p, path, k), Segments(m, p, path, k - 1),
                 RebalancedOn(m, p, path, k - 1));
    }
  }

  lemma {:induction false} SegmentsChain(m: RealMath, p: Params, path: seq<real>, k: nat)
    requires Runnable(p) && k <= |path|
    ensures Chained(Segments(m, p, path, k))
  {
    if k > 0 {
      SegmentsChain(m, p, path, k - 1);
      SettledDay(m, p, path, k - 1);
      var next := SimAfter(m, p, path, k);
      NextChained(Segments(m, p, path, k - 1), next.price, SegmentOf(next, next.price));
    }
  }

  /** The IL reported on a day is the sum of the closed segments plus the open one,
      whether or not the day ends with a reset. */
  lemma IlIsSumOfSegments(m: RealMath, p: Params, path: seq<real>, k: nat)
    requires Runnable(p) && k < |path|
    ensures ReportAt(m, p, path, k).il == TotalIl(m.sqrt, p.initialValueUsd, Segments(m, p, path, k + 1))
  {
    SimAgrees(m, p, path, k);
    SettledDay(m, p, path, k);
    var sim, next := SimAfter(m, p, path, k), SimAfter(m, p, path, k + 1);
    NextTotal(m, p, sim, next, Segments(m, p, path, k), RebalancedOn(m, p, path, k), ReportAt(m, p, path, k).il);
  }

  lemma NextTotal(m: RealMath, p: Params, sim: Sim, next: Sim, before: seq<Segment>, rebalanced: bool, il: real)
    requires Agrees(m, p, sim, before) && il == sim.realized + OpenIl(m, p, sim, next.price)
    requires DayBooked(m, p, sim, next, rebalanced)
    ensures var moved := Moved(before, next.price);
            il == TotalIl(m.sqrt, p.initialValueUsd, if rebalanced then moved + [SegmentOf(next, next.price)] else moved)
  {
    NextAgrees(m, p, sim, next, before, rebalanced);
  }

  /** There is one segment more than rebalances, each starting where the last
      ended. */
  lemma SegmentsMatchRebalances(m: RealMath, p: Params, path: seq<real>, k: nat)
    requires Runnable(p) && k <= |path|
    ensures |Segments(m, p, path, k)| == SimAfter(m, p, path, k).rebalances + 1
    ensures Chained(Segments(m, p, path, k))
  {
    SimAgrees(m, p, path, k);
    SegmentsChain(m, p, path, k);
  }

  lemma NextAgrees(m: RealMath, p: Params, sim: Sim, next: Sim, before: seq<Segment>, rebalanced: bool)
    requires Agrees(m, p, sim, before)
    requires DayBooked(m, p, sim, next, rebalanced)
    ensures var moved := Moved(before, next.price);
            var after := if rebalanced then moved + [SegmentOf(next, next.price)] else moved;
            && Agrees(m, p, next, after)
            && sim.realized + OpenIl(m, p, sim, next.price) == TotalIl(m.sqrt, p.initialValueUsd, after)
  {
    var capital := p.initialValueUsd;
    var open := OpenIl(m, p, sim, next.price);
    var last := SegmentIl(m.sqrt, capital, before[|before| - 1]);
    OpenSegmentIl(m, p, sim, next.price);
    var moved := Moved(before, next.price);
    if rebalanced {
      RebalanceBooks(m.sqrt, capital, sim.realized, last, sim.rebalances, before, next.price, open,
                     SegmentOf(next, next.price));
      NoIlAtEntry(m.sqrt, next.entry, next.lower, next.upper);
      BooksAddUp(m.sqrt, capital, next.realized, 0.0, next.rebalances, moved + [SegmentOf(next, next.price)]);
    } else {
      HoldBooks(m.sqrt, capital, sim.realized, last, sim.rebalances, before, next.price, open);
      BooksAddUp(m.sqrt, capital, sim.realized, open, sim.rebalances, moved);
    }
  }

  /** On every price path: reported IL is never positive nor below minus the
      capital per segment, and realized IL never increases. */
  lemma IlNeverPositive(m: RealMath, p: Params, path: seq<real>, k: nat)
    requires IsSqrt(m.sqrt) && p.initialValueUsd >= 0.0 && Runnable(p) && k < |path|
    ensures var sim, next := SimAfter(m, p, path, k), SimAfter(m, p, path, k + 1);
            && -Repeated(next.rebalances + 1, p.initialValueUsd) <= ReportAt(m, p, path, k).il <= 0.0
            && next.realized <= sim.realized
  {
    IlIsSumOfSegments(m, p, path, k);
    SegmentsMatchRebalances(m, p, path, k + 1);
    var next, segments := SimAfter(m, p, path, k + 1), Segments(m, p, path, k + 1);
    TotalIlBounds(m.sqrt, p.initialValueUsd, segments);
    SettledDay(m, p, path, k);
    OpenSegmentIl(m, p, SimAfter(m, p, path, k), next.price);
    SegmentIlBounds(m.sqrt, p.initialValueUsd, SegmentOf(SimAfter(m, p, path, k), next.price));
  }

  // ---------------------------------------------------------------------
  // Fees, range and signal
  // ---------------------------------------------------------------------

  /** Cumulative fees are the daily fee once per in-range day so far. */
  lemma {:induction false} FeesCountInRangeDays(m: RealMath, p: Params, path: seq<real>, k: nat)
    requires Runnable(p) && k <= |path|
    ensures SimAfter(m, p, path, k).fees == Repeated(CountInRange(Reports(m, p, path, k)), DailyFee(p))
    ensures k > 0 ==> ReportAt(m, p, path, k - 1).fees == SimAfter(m, p, path, k).fees
  {
    RepeatedOnceMore(0, DailyFee(p));
    if k > 0 {
      FeesCountInRangeDays(m, p, path, k - 1);
      var before := CountInRange(Reports(m, p, path, k - 1));
      RepeatedOnceMore(before, DailyFee(p));
      var days := Reports(m, p, path, k);
      assert days[..|days| - 1] == Reports(m, p, path, k - 1);
      FeesOfDay(m, p, path, k - 1);
    }
  }

  lemma FeesOfDay(m: RealMath, p: Params, path: seq<real>, k: nat)
    requires Runnable(p) && k < |path|
    ensures var row := ReportAt(m, p, path, k);
            && row.fees == SimAfter(m, p, path, k + 1).fees
            && row.fees == SimAfter(m, p, path, k).fees + (if row.inRange then DailyFee(p) else 0.0)
  {
  }

  /** Recentring puts the price inside and never widens the range; the width is
      kept exactly when the lower bound is not floored. */
  lemma RecentringKeepsWidth(sim: Sim, price: real)
    requires sim.lower <= sim.upper && price >= PRICE_FLOOR
    ensures var next := Recentred(sim, price);
            && next.lower <= price <= next.upper && next.entry == price
            && next.upper - next.lower <= sim.upper - sim.lower
            && (next.upper - next.lower == sim.upper - sim.lower
                <==> price - (sim.upper - sim.lower) / 2.0 >= PRICE_FLOOR)
  {
  }

  /** Over every path the range never gets wider than the initial one. */
  lemma {:induction false} RangeNeverWidens(m: RealMath, p: Params, path: seq<real>, k: nat)
    requires Runnable(p) && k <= |path| && p.priceLower <= p.priceUpper
    ensures var sim := SimAfter(m, p, path, k);
            sim.lower <= sim.upper && sim.upper - sim.lower <= p.priceUpper - p.priceLower
  {
    if k > 0 {
      RangeNeverWidens(m, p, path, k - 1);
      SettledDay(m, p, path, k - 1);
      RecentringKeepsWidth(SimAfter(m, p, path, k - 1), SimAfter(m, p, path, k).price);
    }
  }

  /** When the engine rebalances. Near-edge distance 0 is not "out of range only":
      a price whose aligned tick is that of a bound rebalances too, unless the
      P&L is negative. */
  lemma FiresIff(m: RealMath, p: Params, sim: Sim, price: real, net: real)
    requires p.tickSpacing != 0
    ensures var t := PriceToTick(m.tickOf, price, p.tickSpacing);
            var lo, hi := PriceToTick(m.tickOf, sim.lower, p.tickSpacing), PriceToTick(m.tickOf, sim.upper, p.tickSpacing);
            Fires(m, p, sim, price, net) <==>
            p.strategyRebalance && (t < lo || t > hi || (net >= 0.0 && (t == lo || t == hi)))
  {
    SignalMeaning(PriceToTick(m.tickOf, price, p.tickSpacing), PriceToTick(m.tickOf, sim.lower, p.tickSpacing),
                  PriceToTick(m.tickOf, sim.upper, p.tickSpacing), net, RebalanceConfig(true, 0, 0.0));
  }

  /** An in-range day rebalances exactly when its P&L is not negative and the
      price shares its aligned tick with one of the bounds. */
  lemma InRangeRebalanceIff(m: RealMath, p: Params, sim: Sim, price: real, net: real)
    requires IsTickOf(m.tickOf) && p.tickSpacing > 0 && p.strategyRebalance
    requires sim.lower > 0.0 && InRange(sim, price)
    ensures var t := PriceToTick(m.tickOf, price, p.tickSpacing);
            Fires(m, p, sim, price, net) <==>
            net >= 0.0 && (t == PriceToTick(m.tickOf, sim.lower, p.tickSpacing)
                           || t == PriceToTick(m.tickOf, sim.upper, p.tickSpacing))
  {
    FiresIff(m, p, sim, price, net);
    PriceToTickKeepsOrder(m.tickOf, sim.lower, price, p.tickSpacing);
    PriceToTickKeepsOrder(m.tickOf, price, sim.upper, p.tickSpacing);
  }

  lemma FirstDayNet(m: RealMath, p: Params, price: real)
    requires IsSqrt(m.sqrt) && DailyFee(p) >= p.initialValueUsd >= 0.0 && InRange(Start(p), price)
    ensures DailyFee(p) + OpenIl(m, p, Start(p), price) >= 0.0
  {
    OpenSegmentIl(m, p, Start(p), price);
    SegmentIlBounds(m.sqrt, p.initialValueUsd, SegmentOf(Start(p), price));
  }

  /** The first day, with the price exactly on the lower bound and fees covering
      any loss: in range, and rebalanced all the same. */
  lemma BoundaryDayRebalances(m: RealMath, p: Params, path: seq<real>)
    requires IsSqrt(m.sqrt) && p.strategyRebalance && p.tickSpacing != 0 && p.priceLower <= p.priceUpper
    requires DailyFee(p) >= p.initialValueUsd >= 0.0
    requires path != [] && NextPrice(p.entryPrice, path[0]) == p.priceLower
    ensures ReportAt(m, p, path, 0).inRange && RebalancedOn(m, p, path, 0)
  {
    var sim, price := Start(p), p.priceLower;
    assert SimAfter(m, p, path, 0) == sim;
    FirstDayNet(m, p, price);
    FiresIff(m, p, sim, price, DailyFee(p) + OpenIl(m, p, sim, price));
    FiredOnFirstDay(m, p, path, price);
  }

  lemma FiredOnFirstDay(m: RealMath, p: Params, path: seq<real>, price: real)
    requires Runnable(p) && path != [] && NextPrice(p.entryPrice, path[0]) == price && InRange(Start(p), price)
    requires Fires(m, p, Start(p), price, DailyFee(p) + OpenIl(m, p, Start(p), price))
    ensures RebalancedOn(m, p, path, 0)
  {
    assert SimAfter(m, p, path, 0) == Start(p);
    assert SimAfter(m, p, path, 1) == Settled(m, p, Start(p), price);
  }

  /** Entry 1 in [0.5, 2], 1,000 USD earning 1,000 USD a day, price halved. */
  lemma HalvedPriceRebalances(m: RealMath)
    requires IsSqrt(m.sqrt)
    ensures var p := Params(1.0, 0.5, 2.0, 10.0, 1000.0, 1000000.0, 1.0, 64, true);
            ReportAt(m, p, [0.5], 0).inRange && RebalancedOn(m, p, [0.5], 0)
  {
    BoundaryDayRebalances(m, Params(1.0, 0.5, 2.0, 10.0, 1000.0, 1000000.0, 1.0, 64, true), [0.5]);
  }
}
