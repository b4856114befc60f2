/** Fees of the replay: independent of the path of the counter, and of the range. */
module ReplayFees {
  import opened Numerics
  import opened Fees
  import opened DayRollup
  import opened DbReplay

  // ---------------------------------------------------------------------
  // The two tokens apart
  // ---------------------------------------------------------------------

  function TokenAFees(input: Input, ticks: seq<Row>, k: nat): real
    requires k <= |ticks|
  {
    if k <= 1 then 0.0
    else TokenAFees(input, ticks, k - 1)
         + (if ticks[k - 1].liquidity > 0 then FeeA(input, ticks[k - 2], ticks[k - 1]) else 0.0)
  }

  function TokenBFees(input: Input, ticks: seq<Row>, k: nat): real
    requires k <= |ticks|
  {
    if k <= 1 then 0.0
    else TokenBFees(input, ticks, k - 1)
         + (if ticks[k - 1].liquidity > 0 then FeeB(input, ticks[k - 2], ticks[k - 1]) else 0.0)
  }

  lemma {:induction false} FeesSplit(input: Input, ticks: seq<Row>, k: nat)
    requires k <= |ticks|
    ensures FeesAfter(input, ticks, k) == TokenAFees(input, ticks, k) + TokenBFees(input, ticks, k)
  {
    if k > 1 {
      FeesSplit(input, ticks, k - 1);
    }
  }

  // ---------------------------------------------------------------------
  // Path independence
  // ---------------------------------------------------------------------

  /** Value in UI units of a growth g of the true total. */
  function GrowthValue(positionLiquidity: int, decimals: nat, g: int): real {
    RawFees(g, positionLiquidity) / Ten(decimals)
  }

  function GrowthValueB(input: Input, g: int): real {
    GrowthValue(input.positionLiquidity, input.decimalsB, g)
  }

  lemma QuotientSum(x: real, y: real, m: real)
    requires m > 0.0
    ensures x / m + y / m == (x + y) / m
  {
    var u, v, w := x / m, y / m, (x + y) / m;
    assert u * m == x && v * m == y && w * m == x + y;
    SignOfFactor(u + v - w, m);
    assert (u + v - w) * m == u * m + v * m - w * m;
  }

  lemma GrowthAdds(positionLiquidity: int, decimals: nat, g: int, h: int)
    ensures GrowthValue(positionLiquidity, decimals, g) + GrowthValue(positionLiquidity, decimals, h)
            == GrowthValue(positionLiquidity, decimals, g + h)
    ensures GrowthValue(positionLiquidity, decimals, 0) == 0.0
  {
    var t, l, s := TWO_POW_64 as real, positionLiquidity as real, Ten(decimals);
    QuotientSum(g as real, h as real, t);
    assert (g + h) as real == g as real + h as real;
    assert g as real / t * l + h as real / t * l == (g as real / t + h as real / t) * l;
    QuotientSum(g as real / t * l, h as real / t * l, s);
  }

  /** Two counter readings of a true total that grew by less than 2^128. */
  predicate Grows(prev: u128, curr: u128, before: int, after: int) {
    prev == Counter(before) && curr == Counter(after) && before <= after < before + TWO_POW_128
  }

  /** Rows i - 1 and i carry the token-B counter of a non-decreasing true total,
      and row i has pool liquidity. */
  predicate StepCounted(ticks: seq<Row>, totals: seq<int>, i: nat)
    requires 0 < i < |ticks| == |totals|
  {
    ticks[i].liquidity > 0 && Grows(ticks[i - 1].feeGrowthB, ticks[i].feeGrowthB, totals[i - 1], totals[i])
  }

  ghost predicate Counted(ticks: seq<Row>, totals: seq<int>) {
    |ticks| == |totals| && forall i | 0 < i < |ticks| :: StepCounted(ticks, totals, i)
  }

  /** Replayed token-B fees are the value of the total growth, however often the
      counter wraps and however the growth is spread over the rows. */
  lemma {:induction false} TokenBFeesArePathIndependent(input: Input, ticks: seq<Row>, totals: seq<int>, k: nat)
    requires Counted(ticks, totals) && 0 < k <= |ticks|
    ensures TokenBFees(input, ticks, k) == GrowthValueB(input, totals[k - 1] - totals[0])
  {
    GrowthAdds(input.positionLiquidity, input.decimalsB, 0, 0);
    if k > 1 {
      TokenBFeesArePathIndependent(input, ticks, totals, k - 1);
      assert StepCounted(ticks, totals, k - 1);
      CounterGap(totals[k - 2], totals[k - 1]);
      GrowthAdds(input.positionLiquidity, input.decimalsB, totals[k - 2] - totals[0], totals[k - 1] - totals[k - 2]);
    }
  }

  /** The same for token A, at one price. */
  predicate StepCountedA(input: Input, ticks: seq<Row>, totals: seq<int>, price: real, i: nat)
    requires 0 < i < |ticks| == |totals|
  {
    && ticks[i].liquidity > 0 && PriceOf(input, ticks[i]) == price
    && Grows(ticks[i - 1].feeGrowthA, ticks[i].feeGrowthA, totals[i - 1], totals[i])
  }

  /** USD value of a token-A growth at one price. */
  function GrowthValueA(input: Input, price: real, g: int): real {
    GrowthValue(input.positionLiquidity, input.decimalsA, g) * price
  }

  lemma PricedGrowthAdds(input: Input, price: real, g: int, h: int)
    ensures GrowthValueA(input, price, g) + GrowthValueA(input, price, h) == GrowthValueA(input, price, g + h)
    ensures GrowthValueA(input, price, 0) == 0.0
  {
    GrowthAdds(input.positionLiquidity, input.decimalsA, g, h);
    PricedSum(GrowthValue(input.positionLiquidity, input.decimalsA, g),
              GrowthValue(input.positionLiquidity, input.decimalsA, h), price);
  }

  lemma PricedSum(x: real, y: real, price: real)
    ensures x * price + y * price == (x + y) * price
  {
  }

  /** While the price stands still token-A fees are path independent too: the
      growth's own value, converted at that price. */
  lemma {:induction false} TokenAFeesAtOnePrice(input: Input, ticks: seq<Row>, totals: seq<int>, price: real, k: nat)
    requires |ticks| == |totals| && (forall i | 0 < i < |ticks| :: StepCountedA(input, ticks, totals, price, i))
    requires 0 < k <= |ticks|
    ensures TokenAFees(input, ticks, k) == GrowthValueA(input, price, totals[k - 1] - totals[0])
  {
    if k == 1 {
      PricedGrowthAdds(input, price, 0, 0);
    } else {
      TokenAFeesAtOnePrice(input, ticks, totals, price, k - 1);
      assert StepCountedA(input, ticks, totals, price, k - 1);
      CounterGap(totals[k - 2], totals[k - 1]);
      FeeAIs(input, ticks[k - 2], ticks[k - 1], totals[k - 1] - totals[k - 2], price);
      PricedGrowthAdds(input, price, totals[k - 2] - totals[0], totals[k - 1] - totals[k - 2]);
    }
  }

  lemma FeeAIs(input: Input, prev: Row, t: Row, step: int, price: real)
    requires WrappingSub(t.feeGrowthA, prev.feeGrowthA) == step && PriceOf(input, t) == price
    ensures FeeA(input, prev, t) == GrowthValueA(input, price, step)
  {
  }

  function Select<T>(s: seq<T>, keep: seq<nat>): (r: seq<T>)
    requires forall j | 0 <= j < |keep| :: keep[j] < |s|
    ensures |r| == |keep|
    ensures forall j | 0 <= j < |keep| :: r[j] == s[keep[j]]
  {
    seq(|keep|, j requires 0 <= j < |keep| => s[keep[j]])
  }

  /** Strictly increasing row numbers, from the first row to the last. */
  ghost predicate KeepsEnds(keep: seq<nat>, n: nat) {
    && keep != [] && n > 0 && keep[0] == 0 && keep[|keep| - 1] == n - 1
    && (forall j | 0 < j < |keep| :: keep[j - 1] < keep[j])
    && (forall j | 0 <= j < |keep| :: keep[j] < n)
  }

  lemma {:induction false} TotalsAscend(ticks: seq<Row>, totals: seq<int>, i: nat, j: nat)
    requires Counted(ticks, totals) && i <= j < |totals|
    ensures totals[i] <= totals[j]
    decreases j
  {
    if i < j {
      TotalsAscend(ticks, totals, i, j - 1);
      assert StepCounted(ticks, totals, j);
    }
  }

  /** Dropping intermediate rows does not change the token-B fees as long as the
      remaining gaps stay below 2^128. */
  lemma DroppingRowsChangesNothing(input: Input, ticks: seq<Row>, totals: seq<int>, keep: seq<nat>)
    requires Counted(ticks, totals) && KeepsEnds(keep, |ticks|)
    requires forall j | 0 < j < |keep| :: totals[keep[j]] < totals[keep[j - 1]] + TWO_POW_128
    ensures TokenBFees(input, Select(ticks, keep), |keep|) == TokenBFees(input, ticks, |ticks|)
  {
    var rows, sums := Select(ticks, keep), Select(totals, keep);
    forall j | 0 < j < |rows|
      ensures StepCounted(rows, sums, j)
    {
      assert keep[j - 1] < keep[j];
      assert StepCounted(ticks, totals, keep[j]);
      if keep[j - 1] == 0 {
        assert StepCounted(ticks, totals, 1);
      } else {
        assert StepCounted(ticks, totals, keep[j - 1]);
      }
      TotalsAscend(ticks, totals, keep[j - 1], keep[j]);
    }
    TokenBFeesArePathIndependent(input, rows, sums, |rows|);
    TokenBFeesArePathIndependent(input, ticks, totals, |ticks|);
  }

  // ---------------------------------------------------------------------
  // Two runs
  // ---------------------------------------------------------------------

  /** Same position size and decimals; range, strategy and capital may differ. */
  predicate SameFeeInputs(x: Input, y: Input) {
    x.positionLiquidity == y.positionLiquidity && x.decimalsA == y.decimalsA && x.decimalsB == y.decimalsB
  }

  lemma SamePrice(x: Input, y: Input, t: Row)
    requires SameFeeInputs(x, y)
    ensures PriceOf(x, t) == PriceOf(y, t)
  {
    assert UiFactor(x) == UiFactor(y);
  }

  lemma SameFeeStep(x: Input, y: Input, prev: Row, t: Row)
    requires SameFeeInputs(x, y)
    ensures FeeStep(x, prev, t) == FeeStep(y, prev, t)
  {
    SamePrice(x, y, t);
    assert FeeA(x, prev, t) == FeeA(y, prev, t);
    assert FeeB(x, prev, t) == FeeB(y, prev, t);
  }

  lemma {:induction false} SameFees(x: Input, y: Input, ticks: seq<Row>, k: nat)
    requires SameFeeInputs(x, y) && k <= |ticks|
    ensures FeesAfter(x, ticks, k) == FeesAfter(y, ticks, k)
  {
    if k > 1 {
      SameFees(x, y, ticks, k - 1);
      SameFeeStep(x, y, ticks[k - 2], ticks[k - 1]);
    }
  }

  /** Same day, fees and price. */
  predicate Alike(o: Observation, o': Observation) {
    o.date == o'.date && o.fees == o'.fees && o.price == o'.price
  }

  lemma ObservedFees(m: RealMath, x: Input, ticks: seq<Row>, i: nat)
    requires x.tickSpacing != 0 && i < |ticks|
    ensures var o := ObservationAt(m, x, ticks, i);
            o.fees == FeesAfter(x, ticks, i + 1) && o.date == Date(ticks[i]) && o.price == PriceOf(x, ticks[i])
  {
  }

  lemma SameObserved(m: RealMath, m': RealMath, x: Input, y: Input, ticks: seq<Row>, i: nat)
    requires x.tickSpacing != 0 && y.tickSpacing != 0 && SameFeeInputs(x, y) && i < |ticks|
    ensures Alike(ObservationAt(m, x, ticks, i), ObservationAt(m', y, ticks, i))
  {
    SameFees(x, y, ticks, i + 1);
    SamePrice(x, y, ticks[i]);
    ObservedFees(m, x, ticks, i);
    ObservedFees(m', y, ticks, i);
  }

  lemma SameReport(obs: seq<Observation>, obs': seq<Observation>, d: nat)
    requires |obs| == |obs'| && forall i | 0 <= i < |obs| :: Alike(obs[i], obs'[i])
    requires DayStarts(obs) == DayStarts(obs') && d < |DayStarts(obs)|
    ensures Days(obs)[d].fees == Days(obs')[d].fees && Days(obs)[d].price == Days(obs')[d].price
  {
    DayReport(obs, d);
    DayReport(obs', d);
    assert DayEnd(obs, d) == DayEnd(obs', d);
    assert Alike(obs[DayEnd(obs, d) - 1], obs'[DayEnd(obs, d) - 1]);
  }

  lemma SameReports(obs: seq<Observation>, obs': seq<Observation>)
    requires |obs| == |obs'| && forall i | 0 <= i < |obs| :: Alike(obs[i], obs'[i])
    ensures |Days(obs)| == |Days(obs')|
    ensures forall d | 0 <= d < |Days(obs)| ::
              Days(obs)[d].fees == Days(obs')[d].fees && Days(obs)[d].price == Days(obs')[d].price
  {
    DatesDecideDays(obs, obs');
    forall d | 0 <= d < |Days(obs)|
      ensures Days(obs)[d].fees == Days(obs')[d].fees && Days(obs)[d].price == Days(obs')[d].price
    {
      SameReport(obs, obs', d);
    }
  }

  /** Runs that differ only in range, rebalance settings, capital or the library's
      real functions report the same days with the same fees and prices. */
  lemma FeesIgnoreTheRange(m: RealMath, m': RealMath, x: Input, y: Input, ticks: seq<Row>)
    requires x.tickSpacing != 0 && y.tickSpacing != 0 && SameFeeInputs(x, y)
    ensures var days, days' := Days(Observations(m, x, ticks)), Days(Observations(m', y, ticks));
            && |days| == |days'|
            && forall d | 0 <= d < |days| :: days[d].fees == days'[d].fees && days[d].price == days'[d].price
    ensures FeesAfter(x, ticks, |ticks|) == FeesAfter(y, ticks, |ticks|)
  {
    var obs, obs' := Observations(m, x, ticks), Observations(m', y, ticks);
    forall i | 0 <= i < |ticks|
      ensures Alike(obs[i], obs'[i])
    {
      SameObserved(m, m', x, y, ticks, i);
    }
    SameFees(x, y, ticks, |ticks|);
    SameReports(obs, obs');
  }
}
