/** Exactly when an operator pause stops submissions. */
module WatchStop {
  import opened Numerics
  import opened Risk
  import opened WatchLoop
  import opened WatchSafety
  import opened WatchRuns
  import opened WatchPause

  /** A state under which the gates let nothing through. */
  predicate Blocks(st: RiskState) {
    st.operatorPause || st.haltFlag
  }

  /** The active proposal can still be approved: it is pending, a handler holds
      its sender, or the answer is in the channel. */
  predicate StillApprovable(s: World) {
    Approvable(s.desk, s.vars.id)
  }

  predicate Approvable(d: Desk, id: nat) {
    d.slot == Some(id) || id in d.held || (id in d.channels && d.channels[id].value.Some?)
  }

  /** The tick in progress has passed the operator gate with a Rebalance decision
      that can still be approved, or needs no approval. */
  predicate PastTheGate(s: World) {
    && s.cfg.mode.Live?
    && ( || s.pc.Submitting? || s.pc.Installing?
         || (s.pc.Deciding? && DecisionOn(s.vars.update).Rebalance?)
         || (s.pc.Clearing? && s.vars.approved)
         || ((s.pc.Sending? || s.pc.Awaiting?) && StillApprovable(s)))
  }

  /** Row, memory and any copy on its way to the row block. */
  ghost predicate AllBlock(s: World) {
    && s.row.Some? && Blocks(s.row.value)
    && (Running(s) && s.cfg.hasDb ==> Blocks(s.mem))
    && (s.pc.Persisting? || s.pc.Resetting? ==> Blocks(s.vars.copy))
  }

  // ---------------------------------------------------------------------
  // Nothing gets through
  // ---------------------------------------------------------------------

  lemma AllBlockProc(s: World, step: ProcStep)
    requires AllBlock(s) && (InGates(s.pc) || s.pc.Resetting? ==> s.cfg.hasDb) && ProcEnabled(s, step)
    ensures AllBlock(ProcApply(s, step))
  {
  }

  lemma AllBlockStep(s: World, step: WorldStep)
    requires AllBlock(s) && (InGates(s.pc) || s.pc.Resetting? ==> s.cfg.hasDb)
    requires Enabled(s, step) && !TouchesPause(step)
    ensures AllBlock(Apply(s, step))
  {
    if step.Proc? {
      AllBlockProc(s, step.p);
    }
  }

  /** The gates hold back every tick that is not past them. */
  lemma GatesHold(s: World, step: ProcStep)
    requires HaltInv(s) && (InGates(s.pc) ==> s.cfg.hasDb)
    requires AllBlock(s) && !PastTheGate(s) && ProcEnabled(s, step) && !Active(s.pc)
    ensures var t := ProcApply(s, step); !PastTheGate(t) && t.hist.submissions == s.hist.submissions
  {
  }

  /** A proposal that can no longer be approved is given up. */
  lemma DeadProposal(s: World, step: ProcStep)
    requires !PastTheGate(s) && ProcEnabled(s, step) && Active(s.pc)
    ensures var t := ProcApply(s, step); !PastTheGate(t) && t.hist.submissions == s.hist.submissions
  {
  }

  /** No handler step revives a proposal. */
  lemma NeverRevived(d: Desk, id: nat, other: nat)
    requires !Approvable(d, id)
    ensures !Approvable(DropTx(d, other).(held := d.held - multiset{other}), id)
    ensures d.slot == Some(other) ==> !Approvable(TakeOn(d, other), id)
    ensures other in d.held && other in d.channels ==> !Approvable(SendOn(d, other), id)
  {
  }

  lemma HandlersKeepDesk(s: World, step: BotStep)
    requires BotEnabled(s, step)
    ensures var t := BotApply(s, step);
            && t.pc == s.pc && t.vars == s.vars && t.cfg == s.cfg && t.hist.submissions == s.hist.submissions
            && (t.desk == s.desk
                || (step.ApproveTake? && s.desk.slot == Some(step.requested) && t.desk == TakeOn(s.desk, step.requested))
                || (step.ApproveSend? && t.desk == SendOn(s.desk, step.sentId))
                || (step.ApproveAbort?
                    && t.desk == DropTx(s.desk, step.abortedId).(held := s.desk.held - multiset{step.abortedId})))
  {
  }

  lemma DeadForHandlers(s: World, step: BotStep)
    requires !PastTheGate(s) && BotEnabled(s, step)
    ensures var t := BotApply(s, step); !PastTheGate(t) && t.hist.submissions == s.hist.submissions
  {
    HandlersKeepDesk(s, step);
    if !StillApprovable(s) {
      match step
      case ApproveTake(other) => NeverRevived(s.desk, s.vars.id, other);
      case ApproveSend(other) => NeverRevived(s.desk, s.vars.id, other);
      case ApproveAbort(other) => NeverRevived(s.desk, s.vars.id, other);
      case _ =>
    }
  }

  lemma BlockedProc(s: World, step: ProcStep)
    requires HaltInv(s) && (InGates(s.pc) ==> s.cfg.hasDb)
    requires AllBlock(s) && !PastTheGate(s) && ProcEnabled(s, step)
    ensures var t := ProcApply(s, step); !PastTheGate(t) && t.hist.submissions == s.hist.submissions
  {
    if Active(s.pc) {
      DeadProposal(s, step);
    } else {
      GatesHold(s, step);
    }
  }

  lemma BlockedStep(s: World, step: WorldStep)
    requires Inv(s) && AllBlock(s) && !PastTheGate(s) && Enabled(s, step) && !TouchesPause(step)
    ensures var t := Apply(s, step); !PastTheGate(t) && t.hist.submissions == s.hist.submissions
  {
    match step
    case Proc(p) => BlockedProc(s, p);
    case Bot(b) => DeadForHandlers(s, b);
    case Env(_) =>
  }

  lemma {:induction false} BlockedRun(s: World, steps: seq<WorldStep>)
    requires Inv(s) && AllBlock(s) && !PastTheGate(s) && Possible(s, steps) && Untouched(steps)
    ensures Final(s, steps).hist.submissions == s.hist.submissions
    decreases |steps|
  {
    if steps != [] {
      InvStep(s, steps[0]);
      AllBlockStep(s, steps[0]);
      BlockedStep(s, steps[0]);
      BlockedRun(Apply(s, steps[0]), steps[1..]);
    }
  }

  // ---------------------------------------------------------------------
  // What is past the gate can be submitted
  // ---------------------------------------------------------------------

  /** An untouched run from s to a submission. */
  ghost predicate Submits(s: World, steps: seq<WorldStep>, t: World) {
    Leads(s, steps, t) && t.hist.submissions > s.hist.submissions
  }

  lemma StepThenSubmit(s: World, step: WorldStep, steps: seq<WorldStep>, t: World) returns (all: seq<WorldStep>)
    requires Enabled(s, step) && !TouchesPause(step) && Apply(s, step).hist.submissions == s.hist.submissions
    requires Submits(Apply(s, step), steps, t)
    ensures Submits(s, all, t)
  {
    all := First(s, step, steps, t);
  }

  lemma FromSubmitting(s: World) returns (steps: seq<WorldStep>, t: World)
    requires s.pc.Submitting? && s.cfg.mode.Live?
    ensures Submits(s, steps, t)
  {
    t := ProcApply(s, Submit);
    LeadsNowhere(t);
    steps := First(s, Proc(Submit), [], t);
  }

  lemma FromClearing(s: World) returns (steps: seq<WorldStep>, t: World)
    requires s.pc.Clearing? && s.vars.approved && s.cfg.mode.Live?
    ensures Submits(s, steps, t)
  {
    steps, t := FromSubmitting(ProcApply(s, Clear));
    steps := StepThenSubmit(s, Proc(Clear), steps, t);
  }

  lemma FromAnswered(s: World) returns (steps: seq<WorldStep>, t: World)
    requires s.pc.Awaiting? && Waiting(s).value == Some(true) && s.cfg.mode.Live?
    ensures Submits(s, steps, t)
  {
    steps, t := FromClearing(ProcApply(s, Receive));
    steps := StepThenSubmit(s, Proc(Receive), steps, t);
  }

  lemma FromHeld(s: World) returns (steps: seq<WorldStep>, t: World)
    requires s.pc.Awaiting? && s.cfg.telegram && s.cfg.mode.Live?
    requires s.vars.id in s.desk.held && s.vars.id in s.desk.channels && !s.desk.channels[s.vars.id].rxGone
    ensures Submits(s, steps, t)
  {
    var id := s.vars.id;
    steps, t := FromAnswered(BotApply(s, ApproveSend(id)));
    steps := StepThenSubmit(s, Bot(ApproveSend(id)), steps, t);
  }

  lemma FromPending(s: World) returns (steps: seq<WorldStep>, t: World)
    requires s.pc.Awaiting? && s.cfg.telegram && s.cfg.mode.Live?
    requires s.desk.slot == Some(s.vars.id) && s.vars.id in s.desk.channels && !s.desk.channels[s.vars.id].rxGone
    ensures Submits(s, steps, t)
  {
    var id := s.vars.id;
    steps, t := FromHeld(BotApply(s, ApproveTake(id)));
    steps := StepThenSubmit(s, Bot(ApproveTake(id)), steps, t);
  }

  lemma FromAwaiting(s: World) returns (steps: seq<WorldStep>, t: World)
    requires Inv(s) && s.pc.Awaiting? && StillApprovable(s) && s.cfg.mode.Live?
    ensures Submits(s, steps, t)
  {
    if Waiting(s).value.Some? {
      steps, t := FromAnswered(s);
    } else if s.vars.id in s.desk.held {
      steps, t := FromHeld(s);
    } else {
      steps, t := FromPending(s);
    }
  }

  lemma FromSending(s: World) returns (steps: seq<WorldStep>, t: World)
    requires Inv(s) && s.pc.Sending? && StillApprovable(s) && s.cfg.mode.Live?
    ensures Submits(s, steps, t)
  {
    InvProc(s, Send(true));
    steps, t := FromAwaiting(ProcApply(s, Send(true)));
    steps := StepThenSubmit(s, Proc(Send(true)), steps, t);
  }

  lemma FromInstalling(s: World) returns (steps: seq<WorldStep>, t: World)
    requires Inv(s) && s.pc.Installing? && s.cfg.mode.Live?
    ensures Submits(s, steps, t)
  {
    InvProc(s, Install);
    steps, t := FromSending(ProcApply(s, Install));
    steps := StepThenSubmit(s, Proc(Install), steps, t);
  }

  lemma FromDeciding(s: World) returns (steps: seq<WorldStep>, t: World)
    requires Inv(s) && s.pc.Deciding? && DecisionOn(s.vars.update).Rebalance? && s.cfg.mode.Live?
    ensures Submits(s, steps, t)
  {
    InvProc(s, Decide);
    if s.cfg.telegram {
      steps, t := FromInstalling(ProcApply(s, Decide));
    } else {
      steps, t := FromSubmitting(ProcApply(s, Decide));
    }
    steps := StepThenSubmit(s, Proc(Decide), steps, t);
  }

  lemma FromPastTheGate(s: World) returns (steps: seq<WorldStep>, t: World)
    requires Inv(s) && PastTheGate(s)
    ensures Submits(s, steps, t)
  {
    if s.pc.Submitting? {
      steps, t := FromSubmitting(s);
    } else if s.pc.Clearing? {
      steps, t := FromClearing(s);
    } else if s.pc.Awaiting? {
      steps, t := FromAwaiting(s);
    } else if s.pc.Sending? {
      steps, t := FromSending(s);
    } else if s.pc.Installing? {
      steps, t := FromInstalling(s);
    } else {
      steps, t := FromDeciding(s);
    }
  }

  // ---------------------------------------------------------------------
  // A row that lets a later process through
  // ---------------------------------------------------------------------

  const LIVE_PLAIN := Config(Live, true, true, false, Limits(None, None, None))

  /** A pool update below the range, without profit or loss: the signal rebalances. */
  predicate FarBelow(u: PoolUpdate) {
    u.poolTick < u.tickLower && u.feesEarned == 0.0 && u.ilUsd == 0.0 && u.driftMargin == None
  }

  lemma SomeUpdateIsFarBelow() returns (u: PoolUpdate)
    ensures FarBelow(u)
  {
    u := PoolUpdate(-100, 0, 1000, 0.0, 0.0, 0.0, None);
  }

  lemma FarBelowRebalances(u: PoolUpdate)
    requires FarBelow(u)
    ensures DecisionOn(u).Rebalance? && SnapshotOf(u).netPnl == 0.0
  {
  }

  /** Without limits, an un-halted monitor at or above its mark is unchanged. */
  lemma NothingToReport(limits: Limits, st: RiskState, snap: PnlSnapshot)
    requires limits == Limits(None, None, None) && !st.haltFlag && snap.netPnl <= st.peakPnl
    ensures Step(limits, st, snap, None) == (st, Continue)
  {
    assert st.(peakPnl := MaxReal(st.peakPnl, snap.netPnl)) == st;
  }

  /** A tick whose evaluation changes and reports nothing. */
  predicate IsQuiet(s: World) {
    && s.cfg.limits == Limits(None, None, None) && !s.mem.haltFlag && !s.mem.operatorPause
    && s.vars.update.driftMargin == None && SnapshotOf(s.vars.update).netPnl <= s.mem.peakPnl
  }

  lemma QuietEvaluation(s: World)
    requires s.pc.Evaluating? && IsQuiet(s) && s.vars.before == s.mem
    ensures var t := ProcApply(s, Evaluate);
            t == s.(pc := Cloning, vars := s.vars.(action := Continue), hist := t.hist)
            && t.hist.submissions == s.hist.submissions
  {
    NothingToReport(s.cfg.limits, s.mem, SnapshotOf(s.vars.update));
  }

  lemma FromOperatorGate(s: World) returns (steps: seq<WorldStep>, t: World)
    requires Inv(s) && s.pc.OperatorGate? && !s.mem.operatorPause
    requires DecisionOn(s.vars.update).Rebalance? && s.cfg.mode.Live?
    ensures Submits(s, steps, t)
  {
    InvProc(s, PassOperatorGate);
    steps, t := FromDeciding(ProcApply(s, PassOperatorGate));
    steps := StepThenSubmit(s, Proc(PassOperatorGate), steps, t);
  }

  lemma FromHaltGate(s: World) returns (steps: seq<WorldStep>, t: World)
    requires Inv(s) && s.pc.HaltGate? && s.vars.action == Continue && !s.mem.operatorPause
    requires DecisionOn(s.vars.update).Rebalance? && s.cfg.mode.Live?
    ensures Submits(s, steps, t)
  {
    InvProc(s, PassHaltGate);
    steps, t := FromOperatorGate(ProcApply(s, PassHaltGate));
    steps := StepThenSubmit(s, Proc(PassHaltGate), steps, t);
  }

  lemma FromQuietClone(s: World) returns (steps: seq<WorldStep>, t: World)
    requires Inv(s) && s.pc.Cloning? && s.vars.action == Continue && s.vars.before == s.mem && !s.mem.operatorPause
    requires DecisionOn(s.vars.update).Rebalance? && s.cfg.mode.Live?
    ensures Submits(s, steps, t)
  {
    InvProc(s, Clone);
    steps, t := FromHaltGate(ProcApply(s, Clone));
    steps := StepThenSubmit(s, Proc(Clone), steps, t);
  }

  lemma FromQuietEvaluation(s: World) returns (steps: seq<WorldStep>, t: World)
    requires Inv(s) && s.pc.Evaluating? && IsQuiet(s) && s.vars.before == s.mem
    requires DecisionOn(s.vars.update).Rebalance? && s.cfg.mode.Live?
    ensures Submits(s, steps, t)
  {
    InvProc(s, Evaluate);
    QuietEvaluation(s);
    steps, t := FromQuietClone(ProcApply(s, Evaluate));
    steps := StepThenSubmit(s, Proc(Evaluate), steps, t);
  }

  lemma FromQuietTick(s: World) returns (steps: seq<WorldStep>, t: World)
    requires Inv(s) && s.pc.ReadingBefore? && IsQuiet(s)
    requires DecisionOn(s.vars.update).Rebalance? && s.cfg.mode.Live?
    ensures Submits(s, steps, t)
  {
    InvProc(s, ReadBefore);
    steps, t := FromQuietEvaluation(ProcApply(s, ReadBefore));
    steps := StepThenSubmit(s, Proc(ReadBefore), steps, t);
  }

  /** A process freshly started on a row that does not block. */
  lemma FromFreshProcess(s: World) returns (steps: seq<WorldStep>, t: World)
    requires Inv(s) && s.pc.Idle? && s.cfg == LIVE_PLAIN && !Blocks(s.mem) && s.mem.peakPnl == 0.0
    ensures Submits(s, steps, t)
  {
    var update := SomeUpdateIsFarBelow();
    FarBelowRebalances(update);
    InvProc(s, TickArrives(update));
    steps, t := FromQuietTick(ProcApply(s, TickArrives(update)));
    steps := StepThenSubmit(s, Proc(TickArrives(update)), steps, t);
  }

  lemma FromResetting(s: World) returns (steps: seq<WorldStep>, t: World)
    requires Inv(s) && s.pc.Resetting? && s.cfg == LIVE_PLAIN && !Blocks(s.vars.copy)
    ensures Submits(s, steps, t)
  {
    InvProc(s, Reset(true));
    steps, t := FromFreshProcess(ProcApply(s, Reset(true)));
    steps := StepThenSubmit(s, Proc(Reset(true)), steps, t);
  }

  lemma FromLoading(s: World) returns (steps: seq<WorldStep>, t: World)
    requires Inv(s) && s.pc.Loading? && s.cfg == LIVE_PLAIN && s.row.Some? && !Blocks(s.row.value)
    ensures Submits(s, steps, t)
  {
    InvProc(s, Load(true));
    steps, t := FromResetting(ProcApply(s, Load(true)));
    steps := StepThenSubmit(s, Proc(Load(true)), steps, t);
  }

  lemma FromDown(s: World) returns (steps: seq<WorldStep>, t: World)
    requires Inv(s) && s.pc.Down? && s.row.Some? && !Blocks(s.row.value)
    ensures Submits(s, steps, t)
  {
    InvEnv(s, Launch(LIVE_PLAIN));
    steps, t := FromLoading(EnvApply(s, Launch(LIVE_PLAIN)));
    steps := StepThenSubmit(s, Env(Launch(LIVE_PLAIN)), steps, t);
  }

  /** Crash now, restart live: the row decides. */
  lemma FromOpenRow(s: World) returns (steps: seq<WorldStep>, t: World)
    requires Inv(s) && !s.pc.Down? && s.row.Some? && !Blocks(s.row.value)
    ensures Submits(s, steps, t)
  {
    InvEnv(s, Stop);
    steps, t := FromDown(EnvApply(s, Stop));
    steps := StepThenSubmit(s, Env(Stop), steps, t);
  }

  lemma FromOpenCopy(s: World) returns (steps: seq<WorldStep>, t: World)
    requires Inv(s) && s.pc.Persisting? && !Blocks(s.vars.copy)
    ensures Submits(s, steps, t)
  {
    InvProc(s, Persist(true));
    steps, t := FromOpenRow(ProcApply(s, Persist(true)));
    steps := StepThenSubmit(s, Proc(Persist(true)), steps, t);
  }

  // ---------------------------------------------------------------------
  // Main result
  // ---------------------------------------------------------------------

  /** No run without further pause commands and hand edits submits anything. */
  ghost predicate StopsSubmissions(s: World) {
    forall steps | Possible(s, steps) && Untouched(steps) :: Final(s, steps).hist.submissions == s.hist.submissions
  }

  /** With memory paused, nothing is submitted by this process or any later one
      exactly when the tick in progress is not past the operator gate with a
      decision that can still go through, and neither the row nor a clone on its
      way to it would let a later process through. */
  lemma PauseStopsSubmissionsIff(s: World)
    requires Inv(s) && Running(s) && s.cfg.hasDb && s.mem.operatorPause
    ensures StopsSubmissions(s)
            <==> !PastTheGate(s) && Blocks(s.row.value) && (s.pc.Persisting? ==> Blocks(s.vars.copy))
  {
    if PastTheGate(s) {
      var steps, t := FromPastTheGate(s);
    } else if !Blocks(s.row.value) {
      var steps, t := FromOpenRow(s);
    } else if s.pc.Persisting? && !Blocks(s.vars.copy) {
      var steps, t := FromOpenCopy(s);
    } else {
      forall steps | Possible(s, steps) && Untouched(steps)
        ensures Final(s, steps).hist.submissions == s.hist.submissions
      {
        BlockedRun(s, steps);
      }
    }
  }

  /** The same right after a `/pause` was confirmed. */
  lemma ConfirmedPauseStopsSubmissionsIff(s: World)
    requires Inv(s) && BotEnabled(s, FlagMemory(true))
    ensures StopsSubmissions(Confirmed(s))
            <==> !PastTheGate(s) && Blocks(s.row.value) && (s.pc.Persisting? ==> Blocks(s.vars.copy))
  {
    InvBot(s, FlagMemory(true));
    PauseStopsSubmissionsIff(Confirmed(s));
  }
}
