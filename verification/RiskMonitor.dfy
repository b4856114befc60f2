/** The risk evaluator (src/strategy/risk_monitor.rs): a latching state machine
    over the drawdown halt, the IL pause and the P&L high-water mark. */
module Risk {
  import opened Numerics
  import Metrics

  datatype RiskState = RiskState(
    peakPnl: real,
    currentDrawdownPct: real,
    pauseFlag: bool,
    haltFlag: bool,
    operatorPause: bool)

  /** The row `load_or_init` inserts for a new pool. */
  const FRESH_STATE := RiskState(0.0, 0.0, false, false, false)

  datatype Limits = Limits(
    maxDrawdownPct: Option<real>,
    maxIlPct: Option<real>,
    driftMinMarginRatio: Option<real>)

  datatype PnlSnapshot = PnlSnapshot(ilUsd: real, netPnl: real, positionValue: real)

  datatype RiskAction =
    | Continue
    | PauseRebalancing(ilPct: real)
    | ResumeRebalancing(resumeIlPct: real)
    | HaltAll(drawdownPct: real)
    | CloseDriftHedge(marginRatio: real)

  const MIN_PEAK_USD := 1.0

  /** IL as a percentage of the position value; 0 without a position value. */
  function IlPct(snap: PnlSnapshot): real {
    if snap.positionValue > 0.0 then AbsReal(snap.ilUsd) / snap.positionValue * 100.0 else 0.0
  }

  /** The action and new state of one evaluation. */
  function Step(limits: Limits, st: RiskState, snap: PnlSnapshot, drift: Option<real>): (RiskState, RiskAction) {
    if st.haltFlag then (st, HaltAll(st.currentDrawdownPct))
    else
      var marked := st.(peakPnl := MaxReal(st.peakPnl, snap.netPnl));
      if limits.maxDrawdownPct.Some? && marked.peakPnl >= MIN_PEAK_USD then
        var dd := (marked.peakPnl - snap.netPnl) / marked.peakPnl * 100.0;
        var measured := marked.(currentDrawdownPct := dd);
        if dd > limits.maxDrawdownPct.value then (measured.(haltFlag := true), HaltAll(dd))
        else AfterDrawdown(limits, measured, snap, drift)
      else AfterDrawdown(limits, marked, snap, drift)
  }

  function AfterDrawdown(limits: Limits, st: RiskState, snap: PnlSnapshot, drift: Option<real>): (RiskState, RiskAction) {
    var ilPct := IlPct(snap);
    if limits.maxIlPct.Some? && ilPct > limits.maxIlPct.value then
      (st.(pauseFlag := true), PauseRebalancing(ilPct))
    else if limits.maxIlPct.Some? && st.pauseFlag then
      (st.(pauseFlag := false), ResumeRebalancing(ilPct))
    else if limits.driftMinMarginRatio.Some? && drift.Some? && drift.value < limits.driftMinMarginRatio.value then
      (st, CloseDriftHedge(drift.value))
    else
      (st, Continue)
  }

  /** The evaluator object shared by the tick processor and the bot handlers. */
  class RiskMonitor {
    var state: RiskState
    const limits: Limits

    constructor (state: RiskState, limits: Limits)
      ensures this.state == state && this.limits == limits
    {
      this.state := state;
      this.limits := limits;
    }

    method Evaluate(snap: PnlSnapshot, drift: Option<real>) returns (action: RiskAction)
      modifies this
      ensures (state, action) == Step(limits, old(state), snap, drift)
    {
      if state.haltFlag {
        return HaltAll(state.currentDrawdownPct);
      }
      if snap.netPnl > state.peakPnl {
        state := state.(peakPnl := snap.netPnl);
      }
      if limits.maxDrawdownPct.Some? {
        if state.peakPnl >= MIN_PEAK_USD {
          var drawdownPct := (state.peakPnl - snap.netPnl) / state.peakPnl * 100.0;
          state := state.(currentDrawdownPct := drawdownPct);
          if drawdownPct > limits.maxDrawdownPct.value {
            state := state.(haltFlag := true);
            return HaltAll(drawdownPct);
          }
        }
      }
      var ilPct := if snap.positionValue > 0.0 then AbsReal(snap.ilUsd) / snap.positionValue * 100.0 else 0.0;
      if limits.maxIlPct.Some? {
        if ilPct > limits.maxIlPct.value {
          state := state.(pauseFlag := true);
          return PauseRebalancing(ilPct);
        } else if state.pauseFlag {
          state := state.(pauseFlag := false);
          return ResumeRebalancing(ilPct);
        }
      }
      if limits.driftMinMarginRatio.Some? && drift.Some? {
        if drift.value < limits.driftMinMarginRatio.value {
          return CloseDriftHedge(drift.value);
        }
      }
      return Continue;
    }

    /** The in-memory half of `/pause` and `/resume`. */
    method SetOperatorPause(paused: bool)
      modifies this
      ensures state == old(state).(operatorPause := paused)
    {
      state := state.(operatorPause := paused);
    }
  }

  // ---------------------------------------------------------------------
  // One evaluation in plain amounts, without percentages
  // ---------------------------------------------------------------------

  /** `fall` below a mark of `peak` is more than `limit` percent of it. */
  predicate DeeperThan(peak: real, fall: real, limit: real) {
    fall * 100.0 > limit * peak
  }

  /** A gain or loss of `ilUsd` is more than `limit` percent of the position; a
      position without value counts as having no IL. */
  predicate IlExceeds(ilUsd: real, positionValue: real, limit: real) {
    if positionValue > 0.0 then ilUsd * 100.0 > limit * positionValue || -ilUsd * 100.0 > limit * positionValue
    else 0.0 > limit
  }

  /** The limit is set and this snapshot's IL is over it. */
  predicate OverIlLimit(limits: Limits, snap: PnlSnapshot) {
    limits.maxIlPct.Some? && IlExceeds(snap.ilUsd, snap.positionValue, limits.maxIlPct.value)
  }

  lemma PercentOver(x: real, m: real, limit: real)
    requires m > 0.0
    ensures x / m * 100.0 > limit <==> x * 100.0 > limit * m
    ensures x / m * 100.0 * m == x * 100.0
  {
    var q := x / m;
    assert q * m == x;
    SignOfFactor(q * 100.0 - limit, m);
    assert (q * 100.0 - limit) * m == x * 100.0 - limit * m;
  }

  lemma IlPctOver(snap: PnlSnapshot, limit: real)
    ensures IlPct(snap) > limit <==> IlExceeds(snap.ilUsd, snap.positionValue, limit)
    ensures snap.positionValue > 0.0 ==>
              IlPct(snap) * snap.positionValue == (if snap.ilUsd < 0.0 then -snap.ilUsd else snap.ilUsd) * 100.0
    ensures snap.positionValue <= 0.0 ==> IlPct(snap) == 0.0
  {
    if snap.positionValue > 0.0 {
      PercentOver(AbsReal(snap.ilUsd), snap.positionValue, limit);
    }
  }

  /** The mark an evaluation of `net` measures from. */
  function Mark(peak: real, net: real): real {
    if net > peak then net else peak
  }

  /** The drawdown is measured, with a limit, from a mark of one dollar on. */
  predicate Measures(limits: Limits, mark: real) {
    limits.maxDrawdownPct.Some? && mark >= 1.0
  }

  /** Drawdown of an un-halted monitor: what is stored, and exactly when it halts. */
  lemma DrawdownMeaning(limits: Limits, st: RiskState, snap: PnlSnapshot, drift: Option<real>)
    requires !st.haltFlag
    ensures var (st', action) := Step(limits, st, snap, drift);
            var mark := Mark(st.peakPnl, snap.netPnl);
            && st'.peakPnl == mark && st'.operatorPause == st.operatorPause
            && (if Measures(limits, mark) then st'.currentDrawdownPct * mark == (mark - snap.netPnl) * 100.0
                else st'.currentDrawdownPct == st.currentDrawdownPct)
            && (st'.haltFlag <==> Measures(limits, mark) && DeeperThan(mark, mark - snap.netPnl, limits.maxDrawdownPct.value))
            && (st'.haltFlag <==> action == HaltAll(st'.currentDrawdownPct))
  {
    var mark := Mark(st.peakPnl, snap.netPnl);
    if Measures(limits, mark) {
      PercentOver(mark - snap.netPnl, mark, limits.maxDrawdownPct.value);
    }
  }

  /** The IL pause and the hedge of a monitor that does not halt: which action is
      returned, what it carries, and the pause it leaves. */
  lemma PauseMeaning(limits: Limits, st: RiskState, snap: PnlSnapshot, drift: Option<real>)
    requires !Step(limits, st, snap, drift).0.haltFlag
    ensures var (st', action) := Step(limits, st, snap, drift);
            var over, resumes := OverIlLimit(limits, snap), limits.maxIlPct.Some? && st.pauseFlag;
            && (action.PauseRebalancing? <==> over)
            && (action.ResumeRebalancing? <==> !over && resumes)
            && (action.CloseDriftHedge? <==> !over && !resumes && limits.driftMinMarginRatio.Some? && drift.Some?
                                             && drift.value < limits.driftMinMarginRatio.value)
            && (action.CloseDriftHedge? ==> action.marginRatio == drift.value)
            && (st'.pauseFlag <==> over || (limits.maxIlPct.None? && st.pauseFlag))
  {
    if limits.maxIlPct.Some? {
      IlPctOver(snap, limits.maxIlPct.value);
    }
  }

  /** The percentage reported with a pause or a resume. */
  lemma ReportedIl(limits: Limits, st: RiskState, snap: PnlSnapshot, drift: Option<real>)
    ensures var action := Step(limits, st, snap, drift).1;
            var loss := if snap.ilUsd < 0.0 then -snap.ilUsd else snap.ilUsd;
            && (action.PauseRebalancing? ==> if snap.positionValue > 0.0 then action.ilPct * snap.positionValue == loss * 100.0
                                             else action.ilPct == 0.0)
            && (action.ResumeRebalancing? ==> if snap.positionValue > 0.0
                                              then action.resumeIlPct * snap.positionValue == loss * 100.0
                                              else action.resumeIlPct == 0.0)
  {
    IlPctOver(snap, 0.0);
  }

  // ---------------------------------------------------------------------
  // What one evaluation may and may not do
  // ---------------------------------------------------------------------

  /** The halt is a latch, the mark only rises, the operator's flag is never
      touched; a halt is reported exactly when the state is halted; and with an
      IL limit set, an un-halted monitor is paused exactly when this tick's IL
      exceeds the limit, so a Resume only follows a paused state. */
  lemma StepContract(limits: Limits, st: RiskState, snap: PnlSnapshot, drift: Option<real>)
    ensures var (st', action) := Step(limits, st, snap, drift);
            && (st.haltFlag ==> st' == st && action == HaltAll(st.currentDrawdownPct))
            && (action.HaltAll? <==> st'.haltFlag)
            && (!st.haltFlag ==> st'.peakPnl == MaxReal(st.peakPnl, snap.netPnl))
            && st'.peakPnl >= st.peakPnl
            && st'.operatorPause == st.operatorPause
            && (action.PauseRebalancing? ==> st'.pauseFlag)
            && (action.ResumeRebalancing? ==> st.pauseFlag && !st'.pauseFlag)
            && (limits.maxIlPct.Some? && !st'.haltFlag ==> (st'.pauseFlag <==> OverIlLimit(limits, snap)))
            && (limits.maxIlPct.None? || st'.haltFlag ==> st'.pauseFlag == st.pauseFlag)
            && (limits.maxDrawdownPct.None? ==> st'.haltFlag == st.haltFlag)
  {
    if limits.maxIlPct.Some? {
      IlPctOver(snap, limits.maxIlPct.value);
    }
  }

  /** The update's P&L is `dd` percent below the mark, more than the limit allows. */
  predicate FallsBy(limits: Limits, st: RiskState, snap: PnlSnapshot, dd: real) {
    && limits.maxDrawdownPct.Some? && !st.haltFlag && st.peakPnl >= MIN_PEAK_USD && snap.netPnl <= st.peakPnl
    && dd == (st.peakPnl - snap.netPnl) / st.peakPnl * 100.0 && dd > limits.maxDrawdownPct.value
  }

  lemma FallHalts(limits: Limits, st: RiskState, snap: PnlSnapshot, drift: Option<real>, dd: real)
    requires FallsBy(limits, st, snap, dd)
    ensures Step(limits, st, snap, drift) == (st.(currentDrawdownPct := dd, haltFlag := true), HaltAll(dd))
  {
    assert st.(peakPnl := MaxReal(st.peakPnl, snap.netPnl)) == st;
  }

  // ---------------------------------------------------------------------
  // Streaming halt against batch drawdown
  // ---------------------------------------------------------------------

  /** One tick's inputs to the monitor. */
  datatype TickInput = TickInput(snap: PnlSnapshot, drift: Option<real>)

  /** The state after a sequence of ticks. */
  function After(limits: Limits, st: RiskState, ticks: seq<TickInput>): RiskState {
    if ticks == [] then st
    else
      var n := |ticks| - 1;
      Step(limits, After(limits, st, ticks[..n]), ticks[n].snap, ticks[n].drift).0
  }

  function NetPnls(ticks: seq<TickInput>): (v: seq<real>)
    ensures |v| == |ticks|
    ensures forall i | 0 <= i < |v| :: v[i] == ticks[i].snap.netPnl
  {
    seq(|ticks|, i requires 0 <= i < |ticks| => ticks[i].snap.netPnl)
  }

  /** Index of the first value of at least MIN_PEAK_USD, or |v| if none. */
  function FirstPeak(v: seq<real>): (k: nat)
    ensures k <= |v|
    ensures forall i | 0 <= i < k :: v[i] < MIN_PEAK_USD
    ensures k < |v| ==> v[k] >= MIN_PEAK_USD
  {
    if v == [] then 0
    else
      var n := |v| - 1;
      var k := FirstPeak(v[..n]);
      if k < n || v[n] >= MIN_PEAK_USD then k else |v|
  }

  /** Some prefix falls more than `d` percent below its (established) peak. */
  predicate Breached(v: seq<real>, d: real) {
    Metrics.MaxDrawdown(v[FirstPeak(v)..]) < -d / 100.0
  }

  /** While un-halted the mark is the running peak, floored at the initial 0. */
  ghost predicate TracksPeak(st: RiskState, v: seq<real>) {
    var k := FirstPeak(v);
    if k == |v| then 0.0 <= st.peakPnl < MIN_PEAK_USD else st.peakPnl == Metrics.RunningPeak(v[k..])
  }

  lemma PeakAtLeastFirst(v: seq<real>)
    requires v != []
    ensures Metrics.RunningPeak(v) >= v[0]
  {
    Metrics.PeakIsReached(v);
  }

  lemma PercentOfPeak(peak: real, x: real, d: real)
    requires peak > 0.0
    ensures (peak - x) / peak * 100.0 > d <==> (x - peak) / peak < -d / 100.0
  {
    assert (peak - x) / peak == -((x - peak) / peak) by {
      var u, w := (peak - x) / peak, (x - peak) / peak;
      assert u * peak == peak - x && w * peak == x - peak;
      SignOfFactor(u + w, peak);
    }
  }

  /** Halted exactly on a breach; while un-halted the mark is the running peak. */
  ghost predicate HaltMatches(st: RiskState, v: seq<real>, d: real) {
    && (st.haltFlag <==> FirstPeak(v) < |v| && Breached(v, d))
    && (!st.haltFlag ==> TracksPeak(st, v))
  }

  lemma HaltStep(limits: Limits, before: RiskState, v: seq<real>, tick: TickInput)
    requires limits.maxDrawdownPct.Some? && v != [] && tick.snap.netPnl == v[|v| - 1]
    requires HaltMatches(before, v[..|v| - 1], limits.maxDrawdownPct.value)
    ensures HaltMatches(Step(limits, before, tick.snap, tick.drift).0, v, limits.maxDrawdownPct.value)
  {
    var n := |v| - 1;
    var k := FirstPeak(v);
    if k < |v| {
      var w := v[k..];
      PeakAtLeastFirst(w);
      PercentOfPeak(Metrics.RunningPeak(w), v[n], limits.maxDrawdownPct.value);
      assert w[..|w| - 1] == v[..n][k..];
      assert Metrics.MaxDrawdown(w) == MinReal(Metrics.MaxDrawdown(v[..n][k..]), Metrics.LastDrawdown(w));
      if k == n {
        assert v[..n][n..] == [];
        assert Metrics.LastDrawdown(w) == 0.0;
      } else {
        assert FirstPeak(v[..n]) == k;
      }
    }
  }

  lemma NoTicksYet(st: RiskState, d: real)
    requires st.peakPnl == 0.0 && !st.haltFlag
    ensures HaltMatches(st, [], d)
  {
  }

  /** The monitor after these ticks matches the batch drawdown of their values. */
  ghost predicate MatchedAfter(limits: Limits, st: RiskState, ticks: seq<TickInput>)
    requires limits.maxDrawdownPct.Some?
  {
    HaltMatches(After(limits, st, ticks), NetPnls(ticks), limits.maxDrawdownPct.value)
  }

  lemma MatchedStep(limits: Limits, st: RiskState, ticks: seq<TickInput>)
    requires limits.maxDrawdownPct.Some? && ticks != [] && MatchedAfter(limits, st, ticks[..|ticks| - 1])
    ensures MatchedAfter(limits, st, ticks)
  {
    var n := |ticks| - 1;
    assert NetPnls(ticks)[..n] == NetPnls(ticks[..n]);
    HaltStep(limits, After(limits, st, ticks[..n]), NetPnls(ticks), ticks[n]);
  }

  lemma {:induction false} HaltMatchesRun(limits: Limits, st: RiskState, ticks: seq<TickInput>)
    requires limits.maxDrawdownPct.Some? && st.peakPnl == 0.0 && !st.haltFlag
    ensures MatchedAfter(limits, st, ticks)
  {
    if ticks == [] {
      NoTicksYet(st, limits.maxDrawdownPct.value);
    } else {
      HaltMatchesRun(limits, st, ticks[..|ticks| - 1]);
      MatchedStep(limits, st, ticks);
    }
  }

  /** For every tick sequence from a fresh peak and every limit: the monitor is
      halted exactly when the batch drawdown of the values from the first
      established peak on is below minus the limit. */
  lemma HaltIsBatchDrawdown(limits: Limits, st: RiskState, ticks: seq<TickInput>)
    requires limits.maxDrawdownPct.Some? && st.peakPnl == 0.0 && !st.haltFlag
    ensures var v := NetPnls(ticks);
            After(limits, st, ticks).haltFlag
            <==> FirstPeak(v) < |v| && Metrics.MaxDrawdown(v[FirstPeak(v)..]) < -limits.maxDrawdownPct.value / 100.0
  {
    HaltMatchesRun(limits, st, ticks);
  }

  /** The common case: the first value already establishes a peak. */
  lemma HaltFromFirstTick(limits: Limits, st: RiskState, ticks: seq<TickInput>)
    requires limits.maxDrawdownPct.Some? && st.peakPnl == 0.0 && !st.haltFlag
    requires ticks != [] && ticks[0].snap.netPnl >= MIN_PEAK_USD
    ensures After(limits, st, ticks).haltFlag
            <==> Metrics.MaxDrawdown(NetPnls(ticks)) < -limits.maxDrawdownPct.value / 100.0
  {
    HaltIsBatchDrawdown(limits, st, ticks);
    var v := NetPnls(ticks);
    assert FirstPeak(v) == 0;
    assert v[0..] == v;
  }
}
