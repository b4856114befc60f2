/** What a submission means in plain amounts: for every single tick, and for every
    submission of every run (src/main.rs:1236-1618, src/strategy/risk_monitor.rs:434-502,
    src/strategy/signal.rs:30-64). */
module WatchSubmission {
  import opened Numerics
  import opened Signal
  import opened Risk
  import opened WatchLoop
  import opened WatchSafety

  // ---------------------------------------------------------------------
  // A pool update in plain amounts
  // ---------------------------------------------------------------------

  /** Fees less the size of the IL, which may come with either sign. */
  function NetOf(u: PoolUpdate): real {
    if u.ilUsd < 0.0 then u.feesEarned + u.ilUsd else u.feesEarned - u.ilUsd
  }

  /** The price is out of range, or within ten ticks of a bound while fees cover
      the (signed) IL. */
  predicate WorthRebalancing(u: PoolUpdate) {
    || u.poolTick < u.tickLower || u.poolTick > u.tickUpper
    || (u.feesEarned + u.ilUsd >= 0.0 && (u.poolTick - u.tickLower <= 10 || u.tickUpper - u.poolTick <= 10))
  }

  /** The IL limit, if set, is exceeded. */
  predicate OverIl(limits: Limits, u: PoolUpdate) {
    limits.maxIlPct.Some? && IlExceeds(u.ilUsd, u.positionValue, limits.maxIlPct.value)
  }

  /** Measured from `mark`, the drawdown limit, if set, is exceeded. */
  predicate OverDrawdown(limits: Limits, mark: real, u: PoolUpdate) {
    Measures(limits, mark) && DeeperThan(mark, mark - NetOf(u), limits.maxDrawdownPct.value)
  }

  /** The monitor is or becomes halted. */
  predicate Halts(limits: Limits, st: RiskState, u: PoolUpdate) {
    st.haltFlag || OverDrawdown(limits, Mark(st.peakPnl, NetOf(u)), u)
  }

  // ---------------------------------------------------------------------
  // One step of the processor
  // ---------------------------------------------------------------------

  /** The decision step keeps the tick alive exactly when rebalancing is worth it. */
  lemma DecideMeaning(s: World)
    requires ProcEnabled(s, Decide)
    ensures var t := ProcApply(s, Decide);
            && (t.pc.Idle? <==> !WorthRebalancing(s.vars.update))
            && (!t.pc.Idle? ==> if s.cfg.telegram then t.pc.Installing? else t.pc.Submitting?)
    ensures DecisionOn(s.vars.update).Rebalance? <==> WorthRebalancing(s.vars.update)
  {
    var u := s.vars.update;
    SignalMeaning(u.poolTick, u.tickLower, u.tickUpper, u.feesEarned + u.ilUsd, DEFAULT_CONFIG);
  }

  lemma SnapshotMeaning(u: PoolUpdate)
    ensures SnapshotOf(u) == PnlSnapshot(u.ilUsd, NetOf(u), u.positionValue)
  {
  }

  /** The evaluation of one update. */
  lemma EvaluateMeaning(s: World)
    requires ProcEnabled(s, Evaluate)
    ensures var t, limits, u := ProcApply(s, Evaluate), s.cfg.limits, s.vars.update;
            && (t.mem.haltFlag <==> Halts(limits, s.mem, u))
            && (s.mem.haltFlag ==> t.mem == s.mem)
            && (!s.mem.haltFlag ==> t.mem.peakPnl == Mark(s.mem.peakPnl, NetOf(u)))
            && t.mem.operatorPause == s.mem.operatorPause
            && (PassesHalt(t.vars.action) <==> !Halts(limits, s.mem, u) && !OverIl(limits, u))
            && t.vars.update == u && t.cfg == s.cfg && t.row == s.row && t.vars.before == s.vars.before
  {
    var limits, snap, drift := s.cfg.limits, SnapshotOf(s.vars.update), s.vars.update.driftMargin;
    SnapshotMeaning(s.vars.update);
    StepContract(limits, s.mem, snap, drift);
    if !s.mem.haltFlag {
      DrawdownMeaning(limits, s.mem, snap, drift);
      if !Step(limits, s.mem, snap, drift).0.haltFlag {
        PauseMeaning(limits, s.mem, snap, drift);
      }
    }
  }

  // ---------------------------------------------------------------------
  // One whole tick
  // ---------------------------------------------------------------------

  /** The tick up to the halt gate, with nothing in between. */
  function UpToGate(s: World, u: PoolUpdate, landed: bool): (h: World)
    requires s.pc.Idle? && s.cfg.hasDb
    ensures h.pc.HaltGate?
  {
    var c := Cloned(s, u);
    if c.pc.Persisting? then ProcApply(c, Persist(landed)) else c
  }

  function Read(s: World, u: PoolUpdate): (r: World)
    requires s.pc.Idle? && s.cfg.hasDb
    ensures r.pc.Evaluating? && r.cfg == s.cfg && r.mem == s.mem && r.row == s.row
    ensures r.vars.update == u && r.vars.before == s.mem
  {
    ProcApply(ProcApply(s, TickArrives(u)), ReadBefore)
  }

  function Cloned(s: World, u: PoolUpdate): (c: World)
    requires s.pc.Idle? && s.cfg.hasDb
    ensures c.pc.Persisting? || c.pc.HaltGate?
  {
    ProcApply(ProcApply(Read(s, u), Evaluate), Clone)
  }

  /** The rest of it up to the decision. */
  function FromGate(h: World): World
    requires h.pc.HaltGate?
  {
    var g := ProcApply(h, PassHaltGate);
    if g.pc.Idle? then g
    else
      var d := ProcApply(g, PassOperatorGate);
      if d.pc.Idle? then d else ProcApply(d, Decide)
  }

  /** Equal in every stored field but the drawdown percentage. */
  predicate SameButDrawdown(st: RiskState, st': RiskState) {
    && st.peakPnl == st'.peakPnl && st.pauseFlag == st'.pauseFlag && st.haltFlag == st'.haltFlag
    && st.operatorPause == st'.operatorPause
  }

  lemma GateReached(s: World, u: PoolUpdate, landed: bool)
    requires s.pc.Idle? && s.cfg.hasDb
    ensures var e, h := ProcApply(Read(s, u), Evaluate), UpToGate(s, u, landed);
            && h.mem == e.mem && h.vars.action == e.vars.action && h.vars.update == u && h.cfg == s.cfg
            && h.row == (if landed && !SameButDrawdown(e.mem, s.mem) then Some(e.mem) else s.row)
  {
  }

  lemma GatePassed(h: World)
    requires h.pc.HaltGate?
    ensures var t := FromGate(h);
            && (t.pc.Idle? <==> !PassesHalt(h.vars.action) || h.mem.operatorPause || !WorthRebalancing(h.vars.update))
            && (!t.pc.Idle? ==> if h.cfg.telegram then t.pc.Installing? else t.pc.Submitting?)
            && t.mem == h.mem && t.row == h.row
  {
    var g := ProcApply(h, PassHaltGate);
    if !g.pc.Idle? {
      var d := ProcApply(g, PassOperatorGate);
      if !d.pc.Idle? {
        DecideMeaning(d);
      }
    }
  }

  /** One uninterrupted tick with a database, for every state, limits and update:
      it goes on to a proposal, or to a submission without the bot, exactly when
      the monitor neither is nor becomes halted, IL is within its limit, the
      operator has not paused, and rebalancing is worth it; and if its write lands
      the row agrees with memory afterwards wherever it did before. */
  lemma TickMeaning(s: World, u: PoolUpdate, landed: bool)
    requires s.pc.Idle? && s.cfg.hasDb
    ensures var t, limits := FromGate(UpToGate(s, u, landed)), s.cfg.limits;
            && (!t.pc.Idle? <==> !Halts(limits, s.mem, u) && !OverIl(limits, u) && !s.mem.operatorPause
                                 && WorthRebalancing(u))
            && (!t.pc.Idle? ==> if s.cfg.telegram then t.pc.Installing? else t.pc.Submitting?)
            && (t.mem.haltFlag <==> Halts(limits, s.mem, u))
            && t.mem.peakPnl == (if s.mem.haltFlag then s.mem.peakPnl else Mark(s.mem.peakPnl, NetOf(u)))
            && (landed && s.row.Some? && SameButDrawdown(s.row.value, s.mem) ==>
                  t.row.Some? && SameButDrawdown(t.row.value, t.mem))
            && (!landed ==> t.row == s.row)
  {
    EvaluateMeaning(Read(s, u));
    GateReached(s, u, landed);
    GatePassed(UpToGate(s, u, landed));
  }

  /** Without a database, so in shadow mode, the tick goes straight to the decision,
      and neither monitor nor row takes part. */
  lemma TickWithoutDatabase(s: World, u: PoolUpdate)
    requires s.pc.Idle? && !s.cfg.hasDb
    ensures var a := ProcApply(s, TickArrives(u));
            && a.pc.Deciding?
            && var t := ProcApply(a, Decide);
               && (!t.pc.Idle? <==> WorthRebalancing(u))
               && (!t.pc.Idle? ==> if s.cfg.telegram then t.pc.Installing? else t.pc.Submitting?)
               && t.mem == s.mem && t.row == s.row
  {
    DecideMeaning(ProcApply(s, TickArrives(u)));
  }

  // ---------------------------------------------------------------------
  // Every submission of every run
  // ---------------------------------------------------------------------

  /** Where the evaluation of the tick in progress counts. */
  predicate AfterEvaluation(pc: Pc) {
    pc.Cloning? || pc.Persisting? || pc.HaltGate? || pc.OperatorGate? || BeyondGates(pc)
  }

  /** An evaluation that passed was within both limits, measured from the mark
      memory still has. */
  predicate Weighed(s: World) {
    AfterEvaluation(s.pc) && s.cfg.hasDb && PassesHalt(s.vars.action) ==>
      && !OverIl(s.cfg.limits, s.vars.update)
      && s.mem.peakPnl >= NetOf(s.vars.update) && !OverDrawdown(s.cfg.limits, s.mem.peakPnl, s.vars.update)
  }

  /** What a later step keeps. */
  lemma LaterKeeps(s: World, step: ProcStep)
    requires Running(s) && ProcEnabled(s, step) && !step.Evaluate? && !step.TickArrives?
    ensures var t := ProcApply(s, step);
            && t.cfg == s.cfg && t.mem == s.mem && t.vars.update == s.vars.update && t.vars.action == s.vars.action
            && (AfterEvaluation(t.pc) ==> AfterEvaluation(s.pc))
  {
  }

  lemma WeighedProc(s: World, step: ProcStep)
    requires Weighed(s) && ProcEnabled(s, step)
    ensures Weighed(ProcApply(s, step))
  {
    if step.Evaluate? {
      EvaluateMeaning(s);
    } else if Running(s) && !step.TickArrives? {
      LaterKeeps(s, step);
    }
  }

  lemma WeighedBot(s: World, step: BotStep)
    requires Weighed(s) && BotEnabled(s, step)
    ensures Weighed(BotApply(s, step))
  {
  }

  lemma {:induction false} WeighedRun(s: World, steps: seq<WorldStep>)
    requires Weighed(s) && Possible(s, steps)
    ensures Weighed(Final(s, steps))
    decreases |steps|
  {
    if steps != [] {
      match steps[0] {
        case Proc(p) => WeighedProc(s, p);
        case Bot(b) => WeighedBot(s, b);
        case Env(_) =>
      }
      WeighedRun(Apply(s, steps[0]), steps[1..]);
    }
  }

  lemma ReachableWeighed(s: World)
    requires Reachable(s)
    ensures Weighed(s)
  {
    var init, steps :| Init(init) && Possible(init, steps) && Final(init, steps) == s;
    WeighedRun(init, steps);
  }

  /** Whole-run submission safety. In every interleaving, when the guard lets a
      submission through: the process runs in live mode behind a passed gate;
      memory is not halted; this tick's update is worth rebalancing on, and with
      it IL and drawdown are within their limits; and in this very tick, in this
      order, the risk evaluation returned neither a halt nor an IL pause, the
      operator gate read `operator_pause` as false, and the signal decided to
      rebalance. With the bot, the tick's own proposal was then installed, taken
      by a matching /approve, answered true on its channel, and received. */
  lemma SubmissionSafety(s: World)
    requires Reachable(s) && ProcEnabled(s, Submit)
    requires ProcApply(s, Submit).hist.submissions > s.hist.submissions
    ensures s.cfg.mode.Live? && s.cfg.hasDb && s.cfg.gatePass && !s.mem.haltFlag
    ensures WorthRebalancing(s.vars.update) && !OverIl(s.cfg.limits, s.vars.update)
    ensures s.mem.peakPnl >= NetOf(s.vars.update) && !OverDrawdown(s.cfg.limits, s.mem.peakPnl, s.vars.update)
    ensures PassesHalt(s.vars.action) && DecisionOn(s.vars.update).Rebalance?
    ensures InOrder(SubmissionEvents(s), s.hist.log)
  {
    ReachableInv(s);
    ReachableWeighed(s);
    SubmittingTrail(s);
    var u := s.vars.update;
    SignalMeaning(u.poolTick, u.tickLower, u.tickUpper, u.feesEarned + u.ilUsd, DEFAULT_CONFIG);
  }
}
