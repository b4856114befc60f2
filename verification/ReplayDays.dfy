/** What the reported days and totals of a replay mean in terms of its rows
    (src/backtest/db_replay.rs:83-270). */
module ReplayDays {
  import opened IlLedger
  import opened DayRollup
  import opened DbReplay
  import opened ReplayLedger

  // ---------------------------------------------------------------------
  // Days of a row stream
  // ---------------------------------------------------------------------

  /** Rows i and i + 1 are of different UTC days. */
  predicate DayBreak(ticks: seq<Row>, i: nat)
    requires i + 1 < |ticks|
  {
    ticks[i].time / 86400 != ticks[i + 1].time / 86400
  }

  /** Row i is the last one of its run of equal days. */
  predicate EndsDay(ticks: seq<Row>, i: nat)
    requires i < |ticks|
  {
    i + 1 == |ticks| || DayBreak(ticks, i)
  }

  /** Number of day breaks before row i. */
  function DayIndex(ticks: seq<Row>, i: nat): (d: nat)
    requires i < |ticks|
    ensures d <= i
  {
    if i == 0 then 0 else DayIndex(ticks, i - 1) + (if DayBreak(ticks, i - 1) then 1 else 0)
  }

  lemma {:induction false} DayIndexOrder(ticks: seq<Row>, i: nat, j: nat)
    requires i <= j < |ticks|
    ensures DayIndex(ticks, i) <= DayIndex(ticks, j)
  {
    if i < j {
      DayIndexOrder(ticks, i, j - 1);
    }
  }

  /** Observations and rows have the same dates. */
  ghost predicate Dated(ticks: seq<Row>, obs: seq<Observation>) {
    |obs| == |ticks| && forall i | 0 <= i < |ticks| :: obs[i].date == ticks[i].time / 86400
  }

  /** The days of a prefix are the first days of the whole. */
  lemma {:induction false} PrefixStarts(ticks: seq<Row>, obs: seq<Observation>, i: nat)
    requires Dated(ticks, obs) && i < |ticks|
    ensures |DayStarts(obs[..i + 1])| == DayIndex(ticks, i) + 1
    ensures DayStarts(obs[..i + 1]) <= DayStarts(obs)
    ensures i + 1 < |ticks| && DayBreak(ticks, i) ==> DayStarts(obs[..i + 2]) == DayStarts(obs[..i + 1]) + [i + 1]
    decreases |ticks| - i
  {
    CountStarts(ticks, obs, i);
    if i + 1 == |ticks| {
      assert obs[..i + 1] == obs;
    } else {
      PrefixStarts(ticks, obs, i + 1);
      NextPrefix(obs, i);
    }
  }

  lemma NextPrefix(obs: seq<Observation>, i: nat)
    requires i + 1 < |obs|
    ensures DayStarts(obs[..i + 2])
            == if obs[i].date != obs[i + 1].date then DayStarts(obs[..i + 1]) + [i + 1] else DayStarts(obs[..i + 1])
  {
    var longer := obs[..i + 2];
    assert longer[..i + 1] == obs[..i + 1] && longer[i + 1] == obs[i + 1] && longer[i] == obs[i];
  }

  lemma {:induction false} CountStarts(ticks: seq<Row>, obs: seq<Observation>, i: nat)
    requires Dated(ticks, obs) && i < |ticks|
    ensures |DayStarts(obs[..i + 1])| == DayIndex(ticks, i) + 1
  {
    if i == 0 {
      assert obs[..1][..0] == [];
    } else {
      CountStarts(ticks, obs, i - 1);
      NextPrefix(obs, i - 1);
    }
  }

  /** Row i lies in the day that counts the breaks before it. */
  lemma RowInDay(ticks: seq<Row>, obs: seq<Observation>, i: nat)
    requires Dated(ticks, obs) && i < |ticks|
    ensures var d := DayIndex(ticks, i); d < |DayStarts(obs)| && DayStarts(obs)[d] <= i
  {
    PrefixStarts(ticks, obs, i);
    var d := DayIndex(ticks, i);
    assert DayStarts(obs)[d] == DayStarts(obs[..i + 1])[d];
  }

  /** The day whose last row is i ends there. */
  lemma DayEndsAt(ticks: seq<Row>, obs: seq<Observation>, i: nat)
    requires Dated(ticks, obs) && i < |ticks| && EndsDay(ticks, i)
    ensures var d := DayIndex(ticks, i); d < |DayStarts(obs)| && DayEnd(obs, d) == i + 1
    ensures i + 1 == |ticks| ==> DayIndex(ticks, i) + 1 == |DayStarts(obs)|
  {
    var d := DayIndex(ticks, i);
    PrefixStarts(ticks, obs, i);
    if i + 1 == |ticks| {
      assert obs[..i + 1] == obs;
    } else {
      PrefixStarts(ticks, obs, i + 1);
      assert DayStarts(obs)[d + 1] == DayStarts(obs[..i + 2])[d + 1] == i + 1;
    }
  }

  /** Rows j up to i are of day d exactly from its first row on. */
  lemma SameDayIff(ticks: seq<Row>, obs: seq<Observation>, i: nat, j: nat)
    requires Dated(ticks, obs) && j <= i < |ticks|
    ensures var d := DayIndex(ticks, i);
            d < |DayStarts(obs)| && (DayStarts(obs)[d] <= j <==> DayIndex(ticks, j) == d)
  {
    var d, e := DayIndex(ticks, i), DayIndex(ticks, j);
    RowInDay(ticks, obs, i);
    RowInDay(ticks, obs, j);
    DayIndexOrder(ticks, j, i);
    if e < d {
      StartAfter(ticks, obs, j);
      if e + 1 < d {
        StartsAscend(obs, e + 1, d);
      }
    }
  }

  lemma StartAfter(ticks: seq<Row>, obs: seq<Observation>, j: nat)
    requires Dated(ticks, obs) && j < |ticks| && DayIndex(ticks, j) + 1 < |DayStarts(obs)|
    ensures DayStarts(obs)[DayIndex(ticks, j) + 1] > j
  {
    var e := DayIndex(ticks, j);
    RowInDay(ticks, obs, j);
    var start := DayStarts(obs)[e + 1];
    if start <= j {
      RowInDay(ticks, obs, start);
      DayIndexOrder(ticks, start, j);
      StartIsOf(ticks, obs, e + 1);
    }
  }

  /** The first row of day d has d breaks before it. */
  lemma {:induction false} StartIsOf(ticks: seq<Row>, obs: seq<Observation>, d: nat)
    requires Dated(ticks, obs) && d < |DayStarts(obs)|
    ensures DayIndex(ticks, DayStarts(obs)[d]) == d
  {
    var s := DayStarts(obs)[d];
    PrefixStarts(ticks, obs, s);
    var prefix := DayStarts(obs[..s + 1]);
    DayStartsIff(obs, s);
    LastOfPrefix(obs, s);
    var e := |prefix| - 1;
    assert DayStarts(obs)[e] == prefix[e] == s;
    StartsDiffer(obs, d, e);
  }

  lemma StartsDiffer(obs: seq<Observation>, d: nat, e: nat)
    requires d < |DayStarts(obs)| && e < |DayStarts(obs)|
    ensures DayStarts(obs)[d] == DayStarts(obs)[e] ==> d == e
  {
    if d < e {
      StartsAscend(obs, d, e);
    } else if e < d {
      StartsAscend(obs, e, d);
    }
  }

  lemma LastOfPrefix(obs: seq<Observation>, s: nat)
    requires s < |obs| && (s == 0 || obs[s].date != obs[s - 1].date)
    ensures DayStarts(obs[..s + 1]) != [] && DayStarts(obs[..s + 1])[|DayStarts(obs[..s + 1])| - 1] == s
  {
    if s == 0 {
      assert obs[..1][..0] == [];
    } else {
      NextPrefix(obs, s - 1);
    }
  }

  // ---------------------------------------------------------------------
  // The reported days
  // ---------------------------------------------------------------------

  /** Row j arrived between the tick bounds in force. */
  predicate ArrivedInRange(m: RealMath, input: Input, ticks: seq<Row>, j: nat)
    requires input.tickSpacing != 0 && j < |ticks|
  {
    var b := LedgerAfter(m, input, ticks, j).bounds;
    b.tickLower <= ticks[j].tickCurrent <= b.tickUpper
  }

  ghost predicate SomeInRange(m: RealMath, input: Input, ticks: seq<Row>, i: nat)
    requires input.tickSpacing != 0 && i < |ticks|
  {
    exists j | 0 <= j <= i :: DayIndex(ticks, j) == DayIndex(ticks, i) && ArrivedInRange(m, input, ticks, j)
  }

  /** IL after k rows: the closed segments and the open one. */
  function IlAfter(m: RealMath, input: Input, ticks: seq<Row>, k: nat): real
    requires input.tickSpacing != 0 && k <= |ticks|
  {
    TotalIl(m.sqrt, input.initialValueUsd, Segments(m, input, ticks, k))
  }

  lemma ObservedRow(m: RealMath, input: Input, ticks: seq<Row>, i: nat)
    requires input.tickSpacing != 0 && i < |ticks|
    ensures var o := Observations(m, input, ticks)[i];
            && o.date == ticks[i].time / 86400 && o.price == PriceOf(input, ticks[i])
            && (o.inRange <==> ArrivedInRange(m, input, ticks, i))
            && o.fees == FeesAfter(input, ticks, i + 1) && o.il == IlAfter(m, input, ticks, i + 1)
  {
    IlIsSumOfSegments(m, input, ticks, i + 1);
  }

  lemma RowsDated(m: RealMath, input: Input, ticks: seq<Row>)
    requires input.tickSpacing != 0
    ensures Dated(ticks, Observations(m, input, ticks))
  {
    forall i | 0 <= i < |ticks|
      ensures Observations(m, input, ticks)[i].date == ticks[i].time / 86400
    {
      ObservedRow(m, input, ticks, i);
    }
  }

  lemma DayInRange(m: RealMath, input: Input, ticks: seq<Row>, i: nat)
    requires input.tickSpacing != 0 && i < |ticks|
    ensures var obs := Observations(m, input, ticks);
            var d := DayIndex(ticks, i);
            d < |DayStarts(obs)| && (SawInRange(obs, DayStarts(obs)[d], i + 1) <==> SomeInRange(m, input, ticks, i))
  {
    var obs := Observations(m, input, ticks);
    RowsDated(m, input, ticks);
    RowInDay(ticks, obs, i);
    var start := DayStarts(obs)[DayIndex(ticks, i)];
    if SawInRange(obs, start, i + 1) {
      var j :| start <= j < i + 1 && obs[j].inRange;
      SameDayIff(ticks, obs, i, j);
      ObservedRow(m, input, ticks, j);
    }
    if SomeInRange(m, input, ticks, i) {
      var j :| 0 <= j <= i && DayIndex(ticks, j) == DayIndex(ticks, i) && ArrivedInRange(m, input, ticks, j);
      SameDayIff(ticks, obs, i, j);
      ObservedRow(m, input, ticks, j);
    }
  }

  /** For every replay and every row that ends a day: that day is reported, numbered
      by the days before it, with the row's price, the fees of all rows so far, the
      IL of all segments so far, net as their sum, and in range exactly if some row
      of the day arrived between the bounds in force. */
  lemma DayMeaning(m: RealMath, input: Input, ticks: seq<Row>, i: nat)
    requires input.tickSpacing != 0 && i < |ticks| && EndsDay(ticks, i)
    ensures var days, d := GroupByDay(m, input, ticks).days, DayIndex(ticks, i);
            && d < |days| && days[d].day == d + 1
            && days[d].price == PriceOf(input, ticks[i])
            && days[d].fees == FeesAfter(input, ticks, i + 1)
            && days[d].il == IlAfter(m, input, ticks, i + 1)
            && days[d].net == FeesAfter(input, ticks, i + 1) + IlAfter(m, input, ticks, i + 1)
            && (days[d].inRange <==> SomeInRange(m, input, ticks, i))
  {
    RowsDated(m, input, ticks);
    DayEndsAt(ticks, Observations(m, input, ticks), i);
    ObservedRow(m, input, ticks, i);
    DayInRange(m, input, ticks, i);
  }

  /** Fees over capital per 365 days, in percent; 0 without capital. */
  predicate ApyOf(r: BacktestResult, capital: real) {
    if capital > 0.0 then r.feeApyPct * capital * |r.days| as real == r.totalFees * 36500.0 else r.feeApyPct == 0.0
  }

  /** The summary of a ledger and its days. */
  lemma SummaryMeaning(input: Input, led: Ledger, days: seq<DayResult>, daysInRange: nat)
    requires days != []
    ensures var r := Summary(input, led, days, daysInRange);
            && r.days == days && r.totalFees == led.fees && r.totalIl == led.realized + led.unrealized
            && r.netPnl == r.totalFees + r.totalIl && r.totalRebalances == led.rebalances && r.daysInRange == daysInRange
            && ApyOf(r, input.initialValueUsd)
  {
    ApyIs(Summary(input, led, days, daysInRange), input.initialValueUsd);
  }

  lemma LedgerTotals(m: RealMath, input: Input, ticks: seq<Row>)
    requires input.tickSpacing != 0
    ensures var led := LedgerAfter(m, input, ticks, |ticks|);
            && led.fees == FeesAfter(input, ticks, |ticks|)
            && led.realized + led.unrealized == IlAfter(m, input, ticks, |ticks|)
            && led.rebalances + 1 == |Segments(m, input, ticks, |ticks|)|
  {
    IlIsSumOfSegments(m, input, ticks, |ticks|);
  }

  lemma DayCount(ticks: seq<Row>, obs: seq<Observation>)
    requires Dated(ticks, obs) && ticks != []
    ensures |Days(obs)| == DayIndex(ticks, |ticks| - 1) + 1
  {
    DayEndsAt(ticks, obs, |ticks| - 1);
  }

  /** The totals: one reported day more than there are day breaks, fees and IL after
      the last row, net as their sum, one rebalance less than segments, and the APY
      as fees over capital per 365 days. */
  lemma TotalsMeaning(m: RealMath, input: Input, ticks: seq<Row>, r: BacktestResult)
    requires input.tickSpacing != 0 && ticks != [] && r == GroupByDay(m, input, ticks)
    ensures |r.days| == DayIndex(ticks, |ticks| - 1) + 1
    ensures r.totalFees == FeesAfter(input, ticks, |ticks|) && r.totalIl == IlAfter(m, input, ticks, |ticks|)
    ensures r.netPnl == r.totalFees + r.totalIl
    ensures r.totalRebalances + 1 == |Segments(m, input, ticks, |ticks|)| && r.daysInRange == CountInRange(r.days)
    ensures ApyOf(r, input.initialValueUsd)
  {
    RowsDated(m, input, ticks);
    DayCount(ticks, Observations(m, input, ticks));
    LedgerTotals(m, input, ticks);
    SummaryMeaning(input, LedgerAfter(m, input, ticks, |ticks|), r.days, CountInRange(r.days));
  }

  /** The last reported day carries the totals. */
  lemma LastDayIsTotal(m: RealMath, input: Input, ticks: seq<Row>, r: BacktestResult)
    requires input.tickSpacing != 0 && ticks != [] && r == GroupByDay(m, input, ticks)
    ensures r.days != []
    ensures var last := r.days[|r.days| - 1]; last.fees == r.totalFees && last.il == r.totalIl && last.net == r.netPnl
  {
    TotalsMeaning(m, input, ticks, r);
    DayMeaning(m, input, ticks, |ticks| - 1);
  }

  /** Fees over capital, annualised over the reported days, in percent. */
  lemma ApyMeaning(fees: real, capital: real, days: nat)
    requires days > 0
    ensures capital > 0.0 ==> FeeApyPct(fees, capital, days) * capital * days as real == fees * 36500.0
    ensures capital <= 0.0 ==> FeeApyPct(fees, capital, days) == 0.0
  {
    if capital > 0.0 {
      var n := days as real;
      var f, y := fees / capital, 365.0 / n;
      assert f * capital == fees && y * n == 365.0;
      Regroup(f, y, capital, n);
    }
  }

  lemma ApyIs(r: BacktestResult, capital: real)
    requires r.days != [] && r.feeApyPct == FeeApyPct(r.totalFees, capital, |r.days|)
    ensures ApyOf(r, capital)
  {
    ApyMeaning(r.totalFees, capital, |r.days|);
  }

  lemma Regroup(f: real, y: real, capital: real, n: real)
    ensures f * y * 100.0 * capital * n == (f * capital) * (y * n) * 100.0
  {
    assert f * y * capital == (f * capital) * y;
  }
}
