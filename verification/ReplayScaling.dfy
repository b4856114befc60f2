/** Homogeneity of the replay: the research sweep (src/research.rs) compares
    pools by scaling capital and position liquidity together. */
module ReplayScaling {
  import opened Numerics
  import opened ImpermanentLoss
  import opened Signal
  import opened DayRollup
  import opened DbReplay

  /** y is x with capital and position liquidity multiplied by k. */
  predicate Scaled(x: Input, y: Input, k: real) {
    && k > 0.0
    && y.initialValueUsd == k * x.initialValueUsd
    && y.positionLiquidity as real == k * x.positionLiquidity as real
    && y == x.(initialValueUsd := y.initialValueUsd, positionLiquidity := y.positionLiquidity)
    && x.rebalanceCfg.minNetPnlUsd == 0.0
  }

  // ---------------------------------------------------------------------
  // Scaling as a linear map
  // ---------------------------------------------------------------------

  predicate Adds(f: real -> real, a: real, b: real) {
    f(a + b) == f(a) + f(b)
  }

  predicate KeepsSign(f: real -> real, a: real) {
    f(a) < 0.0 <==> a < 0.0
  }

  ghost predicate Linear(f: real -> real) {
    (forall a, b :: Adds(f, a, b)) && (forall a :: KeepsSign(f, a)) && f(0.0) == 0.0
  }

  /** b is a with every amount scaled. */
  predicate ScaledLedger(a: Ledger, b: Ledger, f: real -> real) {
    && b.fees == f(a.fees) && b.realized == f(a.realized) && b.unrealized == f(a.unrealized)
    && b.bounds == a.bounds && b.rebalances == a.rebalances
  }

  lemma SumOfThree(f: real -> real, a: real, b: real, c: real)
    requires Linear(f)
    ensures f(a) + f(b) + f(c) == f(a + b + c)
    ensures f(a) + f(b) == f(a + b)
  {
    assert Adds(f, a, b);
    assert Adds(f, a + b, c);
  }

  lemma BookScales(f: real -> real, a: Ledger, b: Ledger, fees: real, open: real, fires: bool, reset: Bounds)
    requires Linear(f) && ScaledLedger(a, b, f)
    ensures ScaledLedger(Book(a, fees, open, fires, reset), Book(b, f(fees), f(open), fires, reset), f)
  {
    assert Adds(f, a.realized, open);
  }

  lemma SignalScales(f: real -> real, tick: int, lower: int, upper: int, net: real, config: RebalanceConfig)
    requires Linear(f) && config.minNetPnlUsd == 0.0
    ensures ShouldRebalance(tick, lower, upper, f(net), config) == ShouldRebalance(tick, lower, upper, net, config)
  {
    assert KeepsSign(f, net);
  }

  // ---------------------------------------------------------------------
  // Multiplication by k is such a map
  // ---------------------------------------------------------------------

  function Times(k: real): (f: real -> real)
    ensures forall a :: f(a) == k * a
  {
    a => k * a
  }

  lemma TimesIsLinear(k: real)
    requires k > 0.0
    ensures Linear(Times(k))
  {
    var f := Times(k);
    forall a, b
      ensures Adds(f, a, b)
    {
      assert k * (a + b) == k * a + k * b;
    }
    forall a
      ensures KeepsSign(f, a)
    {
      SignOfFactor(a, k);
    }
  }

  lemma QuotientScales(q: real, q': real, m: real, k: real)
    requires m > 0.0 && q' == k * q
    ensures q' / m == k * (q / m)
  {
    var u, v := q' / m, q / m;
    assert u * m == q' && v * m == q;
    SignOfFactor(u - k * v, m);
    assert (u - k * v) * m == u * m - k * (v * m);
  }

  lemma RawFeesScale(growth: int, l: int, l': int, k: real)
    requires l' as real == k * l as real
    ensures RawFees(growth, l') == k * RawFees(growth, l)
  {
    var g := growth as real / TWO_POW_64 as real;
    assert g * (k * l as real) == k * (g * l as real);
  }

  lemma ProductScales(u: real, v: real, p: real, k: real)
    requires v == k * u
    ensures v * p == k * (u * p)
  {
  }

  lemma FeeBScales(x: Input, y: Input, prev: Row, t: Row, k: real)
    requires Scaled(x, y, k)
    ensures FeeB(y, prev, t) == k * FeeB(x, prev, t)
  {
    var growth := WrappingSub(t.feeGrowthB, prev.feeGrowthB);
    RawFeesScale(growth, x.positionLiquidity, y.positionLiquidity, k);
    QuotientScales(RawFees(growth, x.positionLiquidity), RawFees(growth, y.positionLiquidity), Ten(x.decimalsB), k);
  }

  lemma FeeAScales(x: Input, y: Input, prev: Row, t: Row, k: real)
    requires Scaled(x, y, k)
    ensures FeeA(y, prev, t) == k * FeeA(x, prev, t)
  {
    var growth := WrappingSub(t.feeGrowthA, prev.feeGrowthA);
    var raw, raw' := RawFees(growth, x.positionLiquidity), RawFees(growth, y.positionLiquidity);
    RawFeesScale(growth, x.positionLiquidity, y.positionLiquidity, k);
    QuotientScales(raw, raw', Ten(x.decimalsA), k);
    ProductScales(raw / Ten(x.decimalsA), raw' / Ten(x.decimalsA), PriceOf(x, t), k);
  }

  lemma FeeStepScales(x: Input, y: Input, prev: Row, t: Row, k: real)
    requires Scaled(x, y, k)
    ensures FeeStep(y, prev, t) == Times(k)(FeeStep(x, prev, t))
  {
    FeeAScales(x, y, prev, t, k);
    FeeBScales(x, y, prev, t, k);
    TimesIsLinear(k);
    assert Adds(Times(k), FeeA(x, prev, t), FeeB(x, prev, t));
  }

  lemma OpenIlScales(m: RealMath, x: Input, y: Input, b: Bounds, price: real, k: real)
    requires Scaled(x, y, k)
    ensures OpenIl(m, y, b, price) == Times(k)(OpenIl(m, x, b, price))
  {
    IlUsdScales(ComputeIl(m.sqrt, b.entry, price, b.lower, b.upper), x.initialValueUsd, y.initialValueUsd, k);
  }

  lemma IlUsdScales(il: real, v: real, v': real, k: real)
    requires v' == k * v
    ensures IlUsd(il, v') == k * IlUsd(il, v)
  {
  }

  // ---------------------------------------------------------------------
  // The whole replay
  // ---------------------------------------------------------------------

  lemma {:induction false} FeesScale(x: Input, y: Input, ticks: seq<Row>, n: nat, k: real)
    requires Scaled(x, y, k) && n <= |ticks| && Linear(Times(k))
    ensures FeesAfter(y, ticks, n) == Times(k)(FeesAfter(x, ticks, n))
  {
    if n > 1 {
      FeesScale(x, y, ticks, n - 1, k);
      FeeStepScales(x, y, ticks[n - 2], ticks[n - 1], k);
      assert Adds(Times(k), FeesAfter(x, ticks, n - 1), FeeStep(x, ticks[n - 2], ticks[n - 1]));
    }
  }

  lemma SameBounds(m: RealMath, x: Input, y: Input, entry: real, lower: real, upper: real, k: real)
    requires Scaled(x, y, k) && x.tickSpacing != 0
    ensures BoundsAround(m, y, entry, lower, upper) == BoundsAround(m, x, entry, lower, upper)
  {
    assert UiFactor(y) == UiFactor(x);
  }

  lemma SameReset(m: RealMath, x: Input, y: Input, price: real, k: real)
    requires Scaled(x, y, k) && x.tickSpacing != 0
    ensures ResetAround(m, y, price) == ResetAround(m, x, price)
  {
    var lower, upper := ResetLower(price, x.rangeFactorLower), ResetUpper(price, x.rangeFactorUpper);
    SameBounds(m, x, y, price, lower, upper, k);
    assert BoundsBy(m, y, price, x.rangeFactorLower, x.rangeFactorUpper) == BoundsAround(m, y, price, lower, upper);
  }

  lemma SameMarket(m: RealMath, x: Input, y: Input, t: Row, k: real)
    requires Scaled(x, y, k) && x.tickSpacing != 0
    ensures PriceOf(y, t) == PriceOf(x, t)
    ensures ResetAround(m, y, PriceOf(y, t)) == ResetAround(m, x, PriceOf(x, t))
  {
    SameReset(m, x, y, PriceOf(x, t), k);
  }

  lemma SettleScales(m: RealMath, x: Input, y: Input, a: Ledger, b: Ledger, fees: real, t: Row, k: real)
    requires Scaled(x, y, k) && x.tickSpacing != 0 && Linear(Times(k)) && ScaledLedger(a, b, Times(k))
    ensures ScaledLedger(Settle(m, x, a, fees, t), Settle(m, y, b, Times(k)(fees), t), Times(k))
  {
    var f := Times(k);
    SameMarket(m, x, y, t, k);
    var price := PriceOf(x, t);
    var open := OpenIl(m, x, a.bounds, price);
    OpenIlScales(m, x, y, a.bounds, price, k);
    var net := fees + a.realized + open;
    SumOfThree(f, fees, a.realized, open);
    SignalScales(f, t.tickCurrent, a.bounds.tickLower, a.bounds.tickUpper, net, x.rebalanceCfg);
    BookScales(f, a, b, fees, open, Fires(x, a.bounds, t.tickCurrent, net), ResetAround(m, x, price));
  }

  lemma {:induction false} LedgerScales(m: RealMath, x: Input, y: Input, ticks: seq<Row>, n: nat, k: real)
    requires Scaled(x, y, k) && n <= |ticks| && x.tickSpacing != 0 && Linear(Times(k))
    ensures ScaledLedger(LedgerAfter(m, x, ticks, n), LedgerAfter(m, y, ticks, n), Times(k))
  {
    if n == 0 {
      assert Times(k)(0.0) == 0.0;
    } else {
      LedgerScales(m, x, y, ticks, n - 1, k);
      FeesScale(x, y, ticks, n, k);
      SettleScales(m, x, y, LedgerAfter(m, x, ticks, n - 1), LedgerAfter(m, y, ticks, n - 1),
                   FeesAfter(x, ticks, n), ticks[n - 1], k);
    }
  }

  /** o' is o with fees and IL scaled. */
  predicate ScaledObservation(o: Observation, o': Observation, f: real -> real) {
    o'.date == o.date && o'.price == o.price && o'.inRange == o.inRange && o'.fees == f(o.fees) && o'.il == f(o.il)
  }

  predicate ScaledDay(r: DayResult, r': DayResult, f: real -> real) {
    && r'.day == r.day && r'.price == r.price && r'.inRange == r.inRange
    && r'.fees == f(r.fees) && r'.il == f(r.il) && r'.net == f(r.net)
  }

  lemma ObservationScales(m: RealMath, x: Input, y: Input, ticks: seq<Row>, i: nat, k: real)
    requires Scaled(x, y, k) && i < |ticks| && x.tickSpacing != 0 && Linear(Times(k))
    ensures ScaledObservation(ObservationAt(m, x, ticks, i), ObservationAt(m, y, ticks, i), Times(k))
  {
    LedgerScales(m, x, y, ticks, i, k);
    LedgerScales(m, x, y, ticks, i + 1, k);
    SameMarket(m, x, y, ticks[i], k);
    IlScales(LedgerAfter(m, x, ticks, i + 1), LedgerAfter(m, y, ticks, i + 1), Times(k));
  }

  lemma IlScales(a: Ledger, b: Ledger, f: real -> real)
    requires Linear(f) && ScaledLedger(a, b, f)
    ensures Il(b) == f(Il(a)) && b.fees + Il(b) == f(a.fees + Il(a))
  {
    assert Adds(f, a.realized, a.unrealized);
    assert Adds(f, a.fees, Il(a));
  }

  ghost predicate ScaledObservations(obs: seq<Observation>, obs': seq<Observation>, f: real -> real) {
    |obs| == |obs'| && forall i | 0 <= i < |obs| :: ScaledObservation(obs[i], obs'[i], f)
  }

  lemma FlagScales(obs: seq<Observation>, obs': seq<Observation>, f: real -> real, start: nat, end: nat)
    requires ScaledObservations(obs, obs', f) && end <= |obs|
    ensures SawInRange(obs, start, end) <==> SawInRange(obs', start, end)
  {
    assert forall i | 0 <= i < |obs| :: ScaledObservation(obs[i], obs'[i], f) ==> obs[i].inRange == obs'[i].inRange;
  }

  lemma DayScales(obs: seq<Observation>, obs': seq<Observation>, f: real -> real, d: nat, start: nat, end: nat)
    requires Linear(f) && ScaledObservations(obs, obs', f) && start < end <= |obs|
    ensures ScaledDay(DayOf(obs, d, start, end), DayOf(obs', d, start, end), f)
  {
    FlagScales(obs, obs', f, start, end);
    assert ScaledObservation(obs[end - 1], obs'[end - 1], f);
    assert Adds(f, obs[end - 1].fees, obs[end - 1].il);
  }

  lemma DaysScale(obs: seq<Observation>, obs': seq<Observation>, f: real -> real)
    requires Linear(f) && ScaledObservations(obs, obs', f)
    ensures |Days(obs)| == |Days(obs')| && CountInRange(Days(obs)) == CountInRange(Days(obs'))
    ensures forall d | 0 <= d < |Days(obs)| :: ScaledDay(Days(obs)[d], Days(obs')[d], f)
  {
    forall i | 0 <= i < |obs|
      ensures obs[i].date == obs'[i].date
    {
      assert ScaledObservation(obs[i], obs'[i], f);
    }
    DatesDecideDays(obs, obs');
    forall d | 0 <= d < |Days(obs)|
      ensures ScaledDay(Days(obs)[d], Days(obs')[d], f)
    {
      DayScales(obs, obs', f, d, DayStarts(obs)[d], DayEnd(obs, d));
    }
    FlagsDecideCount(Days(obs), Days(obs'));
  }

  lemma RatioCancels(a: real, b: real, k: real)
    requires b > 0.0 && k > 0.0
    ensures k * b > 0.0 && k * a / (k * b) == a / b
  {
    SignOfFactor(k, b);
    var u, v := k * a / (k * b), a / b;
    assert u * (k * b) == k * a && v * b == a;
    SignOfFactor(u - v, k * b);
    assert (u - v) * (k * b) == u * (k * b) - k * (v * b);
  }

  lemma FeeApyIsHomogeneous(x: Input, y: Input, a: Ledger, b: Ledger, days: nat, k: real)
    requires Scaled(x, y, k) && ScaledLedger(a, b, Times(k))
    ensures FeeApyPct(b.fees, y.initialValueUsd, days) == FeeApyPct(a.fees, x.initialValueUsd, days)
  {
    SignOfFactor(x.initialValueUsd, k);
    if x.initialValueUsd > 0.0 {
      RatioCancels(a.fees, x.initialValueUsd, k);
    }
  }

  /** Every amount of r' is scaled, every count and rate is that of r. */
  ghost predicate ScaledResult(r: BacktestResult, r': BacktestResult, f: real -> real) {
    && |r'.days| == |r.days|
    && (forall d | 0 <= d < |r.days| :: ScaledDay(r.days[d], r'.days[d], f))
    && r'.totalFees == f(r.totalFees) && r'.totalIl == f(r.totalIl) && r'.netPnl == f(r.netPnl)
    && r'.totalRebalances == r.totalRebalances && r'.daysInRange == r.daysInRange
    && r'.feeApyPct == r.feeApyPct
  }

  lemma ReportedDaysScale(m: RealMath, x: Input, y: Input, ticks: seq<Row>, k: real)
    requires Scaled(x, y, k) && x.tickSpacing != 0 && Linear(Times(k))
    ensures var days, days' := Days(Observations(m, x, ticks)), Days(Observations(m, y, ticks));
            && |days| == |days'| && CountInRange(days) == CountInRange(days')
            && forall d | 0 <= d < |days| :: ScaledDay(days[d], days'[d], Times(k))
  {
    var obs, obs' := Observations(m, x, ticks), Observations(m, y, ticks);
    forall i | 0 <= i < |ticks|
      ensures ScaledObservation(obs[i], obs'[i], Times(k))
    {
      ObservationScales(m, x, y, ticks, i, k);
    }
    DaysScale(obs, obs', Times(k));
  }

  lemma TotalsScale(x: Input, y: Input, a: Ledger, b: Ledger, days: seq<DayResult>, days': seq<DayResult>, n: nat,
                    f: real -> real)
    requires Linear(f) && ScaledLedger(a, b, f)
    ensures var r, r' := Summary(x, a, days, n), Summary(y, b, days', n);
            && r'.totalFees == f(r.totalFees) && r'.totalIl == f(r.totalIl) && r'.netPnl == f(r.netPnl)
            && r'.totalRebalances == r.totalRebalances && r'.daysInRange == r.daysInRange
  {
    IlScales(a, b, f);
  }

  lemma SummaryScales(x: Input, y: Input, a: Ledger, b: Ledger, days: seq<DayResult>, days': seq<DayResult>,
                      f: real -> real)
    requires Linear(f) && ScaledLedger(a, b, f)
    requires |days| == |days'| && CountInRange(days) == CountInRange(days')
    requires forall d | 0 <= d < |days| :: ScaledDay(days[d], days'[d], f)
    requires FeeApyPct(b.fees, y.initialValueUsd, |days|) == FeeApyPct(a.fees, x.initialValueUsd, |days|)
    ensures ScaledResult(Summary(x, a, days, CountInRange(days)), Summary(y, b, days', CountInRange(days')), f)
  {
    TotalsScale(x, y, a, b, days, days', CountInRange(days), f);
  }

  /** Capital and position liquidity times k, with no minimum P&L: every day's
      fees, IL and net P&L are times k; rebalances, in-range days and fee APY do
      not change. */
  lemma ReplayIsHomogeneous(m: RealMath, x: Input, y: Input, ticks: seq<Row>, k: real)
    requires Scaled(x, y, k) && x.tickSpacing != 0
    ensures ScaledResult(GroupByDay(m, x, ticks), GroupByDay(m, y, ticks), Times(k))
  {
    TimesIsLinear(k);
    ReportedDaysScale(m, x, y, ticks, k);
    LedgerScales(m, x, y, ticks, |ticks|, k);
    var a, b := LedgerAfter(m, x, ticks, |ticks|), LedgerAfter(m, y, ticks, |ticks|);
    var days, days' := Days(Observations(m, x, ticks)), Days(Observations(m, y, ticks));
    FeeApyIsHomogeneous(x, y, a, b, |days|, k);
    SummaryScales(x, y, a, b, days, days', Times(k));
  }
}
