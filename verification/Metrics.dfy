/** Equity curve and maximum drawdown (src/math/metrics.rs). */
module Metrics {
  import opened Numerics

  /** The highest value of a non-empty series. */
  function RunningPeak(v: seq<real>): real
    requires v != []
  {
    if |v| == 1 then v[0] else MaxReal(RunningPeak(v[..|v| - 1]), v[|v| - 1])
  }

  /** Fall of the last value below the running peak, as a fraction of a positive peak. */
  function LastDrawdown(v: seq<real>): real
    requires v != []
  {
    var peak := RunningPeak(v);
    if peak > 0.0 then (v[|v| - 1] - peak) / peak else 0.0
  }

  /** The deepest drawdown of any prefix. */
  function MaxDrawdown(v: seq<real>): real {
    if v == [] then 0.0 else MinReal(MaxDrawdown(v[..|v| - 1]), LastDrawdown(v))
  }

  /** `max_drawdown`: one pass with a running peak, started at minus infinity. */
  method ComputeMaxDrawdown(equity: seq<real>) returns (maxDd: real)
    ensures maxDd == MaxDrawdown(equity)
  {
    var peak: Option<real> := None;
    maxDd := 0.0;
    for i := 0 to |equity|
      invariant peak == if i == 0 then None else Some(RunningPeak(equity[..i]))
      invariant maxDd == MaxDrawdown(equity[..i])
    {
      var v := equity[i];
      assert equity[..i + 1][..i] == equity[..i];
      if peak.None? || v > peak.value {
        peak := Some(v);
      }
      if peak.value > 0.0 {
        var dd := (v - peak.value) / peak.value;
        if dd < maxDd {
          maxDd := dd;
        }
      }
      MaxDrawdownNotPositive(equity[..i]);
    }
    assert equity[..|equity|] == equity;
  }

  lemma {:induction false} MaxDrawdownNotPositive(v: seq<real>)
    ensures MaxDrawdown(v) <= 0.0
  {
    if v != [] {
      MaxDrawdownNotPositive(v[..|v| - 1]);
    }
  }

  lemma {:induction false} PeakIsReached(v: seq<real>)
    requires v != []
    ensures exists i :: 0 <= i < |v| && v[i] == RunningPeak(v)
    ensures forall i | 0 <= i < |v| :: v[i] <= RunningPeak(v)
  {
    if |v| == 1 {
      assert v[0] == RunningPeak(v);
    } else {
      var head := v[..|v| - 1];
      PeakIsReached(head);
      if v[|v| - 1] < RunningPeak(head) {
        var i :| 0 <= i < |head| && head[i] == RunningPeak(head);
        assert v[i] == RunningPeak(v);
      } else {
        assert v[|v| - 1] == RunningPeak(v);
      }
    }
  }

  // ---------------------------------------------------------------------
  // The textbook definition
  // ---------------------------------------------------------------------

  /** Relative change from value i to a later value j. */
  function Change(v: seq<real>, i: nat, j: nat): real
    requires i <= j < |v| && v[i] > 0.0
  {
    (v[j] - v[i]) / v[i]
  }

  ghost predicate NonNegative(v: seq<real>) {
    forall i | 0 <= i < |v| :: v[i] >= 0.0
  }

  /** `m` is the relative change between some pair of points. */
  ghost predicate Attained(v: seq<real>, m: real) {
    exists i, j :: 0 <= i <= j < |v| && v[i] > 0.0 && m == Change(v, i, j)
  }

  ghost predicate NonePositive(v: seq<real>) {
    forall i | 0 <= i < |v| :: v[i] <= 0.0
  }

  /** `m` is the least change over all pairs, or 0 if no value is positive. */
  ghost predicate LeastChange(v: seq<real>, m: real) {
    && (forall i, j | 0 <= i <= j < |v| && v[i] > 0.0 :: m <= Change(v, i, j))
    && ((m == 0.0 && NonePositive(v)) || Attained(v, m))
  }

  /** A non-negative value falls furthest from the highest earlier value. */
  lemma FallFromPeakIsDeepest(x: real, y: real, peak: real)
    requires 0.0 < x <= peak && y >= 0.0
    ensures (y - peak) / peak <= (y - x) / x
  {
    ScaleOrder(x, peak, y);
    RatioOrder(y - peak, peak, y - x, x);
    assert (y - peak) * x <= (y - x) * peak <==> y * x <= y * peak;
  }

  /** On every non-negative curve the one-pass result is the least relative
      change over all ordered pairs of points. */
  lemma {:induction false} MaxDrawdownIsLeastChange(v: seq<real>)
    requires NonNegative(v)
    ensures LeastChange(v, MaxDrawdown(v))
  {
    if v != [] {
      var n := |v| - 1;
      var head := v[..n];
      MaxDrawdownIsLeastChange(head);
      MaxDrawdownNotPositive(head);
      PeakIsReached(v);
      var m := MaxDrawdown(v);
      forall i, j | 0 <= i <= j < |v| && v[i] > 0.0
        ensures m <= Change(v, i, j)
      {
        if j < n {
          assert Change(v, i, j) == Change(head, i, j);
        } else {
          FallFromPeakIsDeepest(v[i], v[n], RunningPeak(v));
        }
      }
      AttainedByPair(v);
    }
  }

  lemma LastDrawdownAttained(v: seq<real>)
    requires v != [] && RunningPeak(v) > 0.0
    ensures Attained(v, LastDrawdown(v)) && LastDrawdown(v) <= 0.0
  {
    PeakIsReached(v);
    var i :| 0 <= i < |v| && v[i] == RunningPeak(v);
    assert LastDrawdown(v) == Change(v, i, |v| - 1);
    RatioOrder(v[|v| - 1] - v[i], v[i], 0.0, 1.0);
  }

  lemma AttainedEarlier(v: seq<real>, n: nat, m: real)
    requires n <= |v| && Attained(v[..n], m)
    ensures Attained(v, m)
  {
    var i, j :| 0 <= i <= j < n && v[..n][i] > 0.0 && m == Change(v[..n], i, j);
    assert m == Change(v, i, j);
  }

  lemma AttainedByPair(v: seq<real>)
    requires v != []
    requires LeastChange(v[..|v| - 1], MaxDrawdown(v[..|v| - 1]))
    ensures (MaxDrawdown(v) == 0.0 && NonePositive(v)) || Attained(v, MaxDrawdown(v))
  {
    var n := |v| - 1;
    PeakIsReached(v);
    if RunningPeak(v) > 0.0 {
      LastDrawdownAttained(v);
      if MaxDrawdown(v) < LastDrawdown(v) {
        AttainedEarlier(v, n, MaxDrawdown(v));
      }
    } else {
      assert NonePositive(v);
      NothingPositive(v, n);
    }
  }

  lemma NothingPositive(v: seq<real>, n: nat)
    requires n <= |v| && NonePositive(v)
    ensures forall m :: !Attained(v[..n], m)
  {
    assert forall i | 0 <= i < n :: v[..n][i] == v[i];
  }

  // ---------------------------------------------------------------------
  // Equity curve
  // ---------------------------------------------------------------------

  /** `equity_curve`: the open value, then open value plus cumulative P&L. */
  method EquityCurve(initialValueUsd: real, dailyNetPnl: seq<real>) returns (curve: seq<real>)
    ensures |curve| == |dailyNetPnl| + 1 && curve[0] == initialValueUsd
    ensures forall i | 0 <= i < |dailyNetPnl| :: curve[i + 1] - curve[0] == dailyNetPnl[i]
  {
    curve := [initialValueUsd];
    for k := 0 to |dailyNetPnl|
      invariant |curve| == k + 1 && curve[0] == initialValueUsd
      invariant forall i | 0 <= i < k :: curve[i + 1] - curve[0] == dailyNetPnl[i]
    {
      curve := curve + [initialValueUsd + dailyNetPnl[k]];
    }
  }
}
