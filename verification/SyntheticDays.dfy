/** What the synthetic engine's days, ranges and totals mean in plain amounts
    (src/backtest/mod.rs:122-250). */
module SyntheticDays {
  import opened Ticks
  import opened IlLedger
  import opened DayRollup
  import opened DbReplay
  import opened ReplayDays
  import opened SyntheticBacktest

  /** Price reported before day k. */
  function PriceBefore(m: RealMath, p: Params, path: seq<real>, k: nat): real
    requires Runnable(p) && k <= |path|
  {
    if k == 0 then p.entryPrice else ReportAt(m, p, path, k - 1).price
  }

  /** Fees reported before day k. */
  function FeesBefore(m: RealMath, p: Params, path: seq<real>, k: nat): real
    requires Runnable(p) && k <= |path|
  {
    if k == 0 then 0.0 else ReportAt(m, p, path, k - 1).fees
  }

  /** The engine's state is what the last report says. */
  lemma StateIsReported(m: RealMath, p: Params, path: seq<real>, k: nat)
    requires Runnable(p) && k <= |path|
    ensures var sim := SimAfter(m, p, path, k);
            sim.price == PriceBefore(m, p, path, k) && sim.fees == FeesBefore(m, p, path, k)
  {
    if k > 0 {
      ReportedState(m, p, path, k - 1);
    }
  }

  lemma ReportedState(m: RealMath, p: Params, path: seq<real>, k: nat)
    requires Runnable(p) && k < |path|
    ensures var row, next := ReportAt(m, p, path, k), SimAfter(m, p, path, k + 1);
            row.price == next.price && row.fees == next.fees && row.day == k + 1 && row.net == row.fees + row.il
  {
    FeesOfDay(m, p, path, k);
  }

  /** The open segment is the range in force. */
  lemma OpenSegment(m: RealMath, p: Params, path: seq<real>, k: nat)
    requires Runnable(p) && k <= |path|
    ensures var sim, segments := SimAfter(m, p, path, k), Segments(m, p, path, k);
            var open := segments[|segments| - 1];
            open.entry == sim.entry && open.lower == sim.lower && open.upper == sim.upper
  {
    SimAgrees(m, p, path, k);
  }

  /** The price of day k: the one before times the factor, but at least 1e-6. */
  lemma PriceMeaning(m: RealMath, p: Params, path: seq<real>, k: nat)
    requires Runnable(p) && k < |path|
    ensures var moved := PriceBefore(m, p, path, k) * path[k];
            ReportAt(m, p, path, k).price == if moved >= 0.000001 then moved else 0.000001
  {
    StateIsReported(m, p, path, k);
    NextPriceMeaning(PriceBefore(m, p, path, k), path[k]);
  }

  lemma NextPriceMeaning(price: real, factor: real)
    ensures var moved := price * factor; NextPrice(price, factor) == if moved >= 0.000001 then moved else 0.000001
  {
  }

  lemma DailyFeeMeaning(p: Params)
    ensures DailyFee(p) * 10000.0 == p.dailyVolumeUsd * p.positionVolumeShare * p.feeRateBps
  {
    var rate := p.feeRateBps / 10000.0;
    assert rate * 10000.0 == p.feeRateBps;
    var share := p.dailyVolumeUsd * p.positionVolumeShare;
    assert share * rate * 10000.0 == share * (rate * 10000.0);
  }

  /** Every reported day: numbered from 1; in range exactly if the price lies in the
      range of the open segment; then, and only then, one daily fee more; IL as the
      sum over all segments; net as fees plus IL. */
  lemma DayMeaning(m: RealMath, p: Params, path: seq<real>, k: nat, fee: real)
    requires Runnable(p) && k < |path| && fee == DailyFee(p)
    ensures fee * 10000.0 == p.dailyVolumeUsd * p.positionVolumeShare * p.feeRateBps
    ensures var r, segments := ReportAt(m, p, path, k), Segments(m, p, path, k);
            var open := segments[|segments| - 1];
            && r.day == k + 1
            && (r.inRange <==> open.lower <= r.price <= open.upper)
            && r.fees == FeesBefore(m, p, path, k) + (if r.inRange then fee else 0.0)
            && r.il == TotalIl(m.sqrt, p.initialValueUsd, Segments(m, p, path, k + 1))
            && r.net == r.fees + r.il
  {
    DailyFeeMeaning(p);
    StateIsReported(m, p, path, k);
    OpenSegment(m, p, path, k);
    SyntheticBacktest.IlIsSumOfSegments(m, p, path, k);
  }

  lemma RecentredMeaning(sim: Sim, price: real)
    ensures var r, half := Recentred(sim, price), (sim.upper - sim.lower) / 2.0;
            && r.entry == price && r.upper == price + half
            && r.lower == if price - half >= 0.000001 then price - half else 0.000001
  {
  }

  /** The segment a rebalance opens: as wide as the open one, around the price, its
      lower bound at least 1e-6. */
  function NextRange(open: Segment, price: real): Segment {
    var half := (open.upper - open.lower) / 2.0;
    Segment(price, price, if price - half >= 0.000001 then price - half else 0.000001, price + half)
  }

  /** The range in force after day k. */
  lemma NextInForce(m: RealMath, p: Params, path: seq<real>, k: nat)
    requires Runnable(p) && k < |path|
    ensures var sim, next, price := SimAfter(m, p, path, k), SimAfter(m, p, path, k + 1), ReportAt(m, p, path, k).price;
            && next.price == price
            && (RebalancedOn(m, p, path, k) ==> SegmentOf(next, price) == NextRange(SegmentOf(sim, price), price))
  {
    ReportedState(m, p, path, k);
    SettledDay(m, p, path, k);
    RecentredMeaning(SimAfter(m, p, path, k), ReportAt(m, p, path, k).price);
  }

  lemma NextSegments(m: RealMath, p: Params, path: seq<real>, k: nat)
    requires Runnable(p) && k < |path|
    ensures var next := SimAfter(m, p, path, k + 1);
            Segments(m, p, path, k + 1)
            == Moved(Segments(m, p, path, k), next.price)
               + (if RebalancedOn(m, p, path, k) then [SegmentOf(next, next.price)] else [])
  {
    var moved := Moved(Segments(m, p, path, k), SimAfter(m, p, path, k + 1).price);
    assert moved + [] == moved;
  }

  /** The segments: first the given range; each day moves the exit of the open one; a
      rebalance opens the next one. */
  lemma SegmentsMeaning(m: RealMath, p: Params, path: seq<real>, k: nat)
    requires Runnable(p) && k < |path|
    ensures Segments(m, p, path, 0) == [Segment(p.entryPrice, p.entryPrice, p.priceLower, p.priceUpper)]
    ensures var before, price := Segments(m, p, path, k), ReportAt(m, p, path, k).price;
            Segments(m, p, path, k + 1)
            == Moved(before, price)
               + (if RebalancedOn(m, p, path, k) then [NextRange(before[|before| - 1], price)] else [])
  {
    OpenSegment(m, p, path, k);
    NextInForce(m, p, path, k);
    NextSegments(m, p, path, k);
  }

  /** A day ends with a rebalance exactly if rebalancing is on and the aligned tick of
      its price is outside those of the open segment's bounds, or on one of them with
      a reported net that is not negative. */
  lemma RebalanceIff(m: RealMath, p: Params, path: seq<real>, k: nat)
    requires Runnable(p) && p.tickSpacing != 0 && k < |path|
    ensures var r, segments := ReportAt(m, p, path, k), Segments(m, p, path, k);
            var open := segments[|segments| - 1];
            var t := PriceToTick(m.tickOf, r.price, p.tickSpacing);
            var lo, hi := PriceToTick(m.tickOf, open.lower, p.tickSpacing), PriceToTick(m.tickOf, open.upper, p.tickSpacing);
            RebalancedOn(m, p, path, k)
            <==> p.strategyRebalance && (t < lo || t > hi || (r.net >= 0.0 && (t == lo || t == hi)))
  {
    OpenSegment(m, p, path, k);
    FiredOn(m, p, path, k);
    FiresIff(m, p, SimAfter(m, p, path, k), ReportAt(m, p, path, k).price, ReportAt(m, p, path, k).net);
  }

  lemma FiredOn(m: RealMath, p: Params, path: seq<real>, k: nat)
    requires Runnable(p) && k < |path|
    ensures var r := ReportAt(m, p, path, k);
            RebalancedOn(m, p, path, k) <==> SyntheticBacktest.Fires(m, p, SimAfter(m, p, path, k), r.price, r.net)
  {
  }

  lemma SummarisedMeaning(p: Params, days: seq<DayResult>, rebalances: nat, r: BacktestResult)
    requires r == Summarised(p, days, rebalances)
    ensures r.days == days && r.netPnl == r.totalFees + r.totalIl && r.daysInRange == CountInRange(days)
    ensures r.totalRebalances == rebalances
    ensures days == [] ==> r.totalFees == r.totalIl == r.feeApyPct == 0.0
    ensures days != [] ==>
              && r.totalFees == days[|days| - 1].fees && r.totalIl == days[|days| - 1].il
              && ApyOf(r, p.initialValueUsd)
  {
    if days != [] {
      ApyIs(r, p.initialValueUsd);
    }
  }

  /** The totals are the last day's; without days they are 0; and there is one
      rebalance less than segments. */
  lemma TotalsMeaning(m: RealMath, p: Params, path: seq<real>, r: BacktestResult)
    requires Runnable(p)
    requires r == Summarised(p, Reports(m, p, path, |path|), SimAfter(m, p, path, |path|).rebalances)
    ensures |r.days| == |path| && r.netPnl == r.totalFees + r.totalIl && r.daysInRange == CountInRange(r.days)
    ensures path == [] ==> r.totalFees == r.totalIl == r.feeApyPct == 0.0
    ensures path != [] ==>
              && r.totalFees == r.days[|path| - 1].fees && r.totalIl == r.days[|path| - 1].il
              && ApyOf(r, p.initialValueUsd)
    ensures r.totalRebalances + 1 == |Segments(m, p, path, |path|)|
  {
    SegmentsMatchRebalances(m, p, path, |path|);
    SummarisedMeaning(p, Reports(m, p, path, |path|), SimAfter(m, p, path, |path|).rebalances, r);
  }

  /** Row k of the result is the report of day k. */
  lemma {:induction false} ReportsAt(m: RealMath, p: Params, path: seq<real>, n: nat, k: nat)
    requires Runnable(p) && k < n <= |path|
    ensures Reports(m, p, path, n)[k] == ReportAt(m, p, path, k)
  {
    if k < n - 1 {
      ReportsAt(m, p, path, n - 1, k);
    }
  }
}
