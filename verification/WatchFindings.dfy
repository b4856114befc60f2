/** Reachable worlds in which the watch process does not do what its messages
    suggest. Exactly when it does is in WatchPause, WatchStop and WatchApproval. */
module WatchFindings {
  import opened Numerics
  import opened Risk
  import opened Proposal
  import opened WatchLoop
  import opened WatchRuns
  import opened WatchPause
  import opened WatchStop
  import opened WatchHalt

  const LIVE_WITH_BOT := Config(Live, true, true, true, Limits(None, None, None))

  /** A live session with the bot and nothing to hold it back. */
  predicate Ready(s: World) {
    && s.cfg == LIVE_WITH_BOT && s.row.Some? && !Blocks(s.row.value) && !Blocks(s.mem) && s.mem.peakPnl >= 0.0
    && s.flags == multiset{} && s.hist.submissions == 0
  }

  /** Clock, past proposals and desk. */
  predicate SameRecord(s: World, t: World) {
    t.now == s.now && t.hist.runs == s.hist.runs && t.desk == s.desk
  }

  // ---------------------------------------------------------------------
  // A session step by step
  // ---------------------------------------------------------------------

  lemma Loaded(down: World) returns (s: World)
    requires Reachable(down) && down.pc.Down? && (down.row.Some? ==> !Blocks(down.row.value))
    ensures Reachable(s) && s.pc.Resetting? && s.cfg == LIVE_WITH_BOT && s.row == Some(s.vars.copy) && !Blocks(s.vars.copy)
    ensures s.desk == EMPTY_DESK && s.flags == multiset{} && s.now == down.now && s.hist.runs == down.hist.runs
    ensures s.hist.submissions == down.hist.submissions
  {
    s := Walk(down, Env(Launch(LIVE_WITH_BOT)));
    s := Walk(s, Proc(Load(true)));
  }

  lemma Started(down: World) returns (s: World)
    requires Reachable(down) && down.pc.Down? && (down.row.Some? ==> !Blocks(down.row.value)) && down.hist.submissions == 0
    ensures Reachable(s) && s.pc.Idle? && Ready(s)
    ensures s.desk == EMPTY_DESK && s.now == down.now && s.hist.runs == down.hist.runs
  {
    s := Loaded(down);
    s := Walk(s, Proc(Reset(true)));
  }

  /** A first session, on a fresh database, at second 1. */
  lemma FirstSession() returns (s: World)
    ensures Reachable(s) && s.pc.Idle? && Ready(s) && s.desk == EMPTY_DESK && s.now == 1 && s.hist.runs == []
  {
    var update := SomeUpdateIsFarBelow();
    var locals := Locals(update, FRESH_STATE, Continue, FRESH_STATE, 0, false);
    s := World(None, 1, LIVE_WITH_BOT, Down, FRESH_STATE, locals, EMPTY_DESK, multiset{}, History(0, [], [], [], 0));
    assert Init(s) && Possible(s, []) && Final(s, []) == s;
    s := Started(s);
  }

  lemma Restarted(s: World) returns (t: World)
    requires Reachable(s) && !s.pc.Down? && Ready(s)
    ensures Reachable(t) && t.pc.Idle? && Ready(t) && t.desk == EMPTY_DESK && t.now == s.now && t.hist.runs == s.hist.runs
  {
    t := Walk(s, Env(Stop));
    t := Started(t);
  }

  lemma UpdateReceived(s: World) returns (t: World)
    requires Reachable(s) && s.pc.Idle? && Ready(s)
    ensures Reachable(t) && t.pc.Evaluating? && Ready(t) && IsQuiet(t) && t.vars.before == t.mem
    ensures DecisionOn(t.vars.update).Rebalance? && SameRecord(s, t)
  {
    var update := SomeUpdateIsFarBelow();
    FarBelowRebalances(update);
    t := Walk(s, Proc(TickArrives(update)));
    t := Walk(t, Proc(ReadBefore));
  }

  lemma UpdateEvaluated(s: World) returns (t: World)
    requires Reachable(s) && s.pc.Idle? && Ready(s)
    ensures Reachable(t) && t.pc.HaltGate? && Ready(t) && t.vars.action == Continue
    ensures DecisionOn(t.vars.update).Rebalance? && SameRecord(s, t)
  {
    t := UpdateReceived(s);
    QuietEvaluation(t);
    t := Walk(t, Proc(Evaluate));
    t := Walk(t, Proc(Clone));
  }

  lemma RebalanceDecided(s: World) returns (t: World)
    requires Reachable(s) && s.pc.Idle? && Ready(s)
    ensures Reachable(t) && t.pc.Installing? && Ready(t) && SameRecord(s, t)
  {
    t := UpdateEvaluated(s);
    t := Walk(t, Proc(PassHaltGate));
    t := Walk(t, Proc(PassOperatorGate));
    t := Walk(t, Proc(Decide));
  }

  /** A proposal has just been sent to the operator. */
  predicate Proposed(s: World) {
    && s.pc.Awaiting? && s.desk.slot == Some(s.vars.id) && s.vars.id in s.desk.channels
    && s.desk.channels[s.vars.id] == Channel(None, false, false)
  }

  lemma ProposalSent(s: World) returns (t: World)
    requires Reachable(s) && s.pc.Idle? && Ready(s)
    ensures Reachable(t) && Proposed(t) && Ready(t) && t.now == s.now
    ensures t.vars.id == NextId(s.desk.nextId, s.now) && t.desk.nextId == Some(t.vars.id + 1)
    ensures t.hist.runs == Record(s.hist.runs, s.desk.nextId, t.vars.id)
  {
    t := RebalanceDecided(s);
    t := Walk(t, Proc(Install));
    t := Walk(t, Proc(Send(true)));
  }

  lemma TimedOutUnanswered(s: World) returns (t: World)
    requires Reachable(s) && Proposed(s) && Ready(s)
    ensures Reachable(t) && t.pc.Idle? && Ready(t) && t.now == s.now && t.hist.runs == s.hist.runs
    ensures t.desk.nextId == s.desk.nextId
  {
    t := Walk(s, Proc(Timeout));
    t := Walk(t, Proc(DropReceiver));
    t := Walk(t, Proc(Clear));
  }

  // ---------------------------------------------------------------------
  // Approvals
  // ---------------------------------------------------------------------

  /** "Executing rebalance" does not imply execution: the timeout can fall
      between taking the approval and sending it. Some reachable world has
      answered "Executing" for an expired proposal and submitted nothing. */
  lemma ExecutingIsNotExecution() returns (s: World)
    ensures Reachable(s) && s.pc.Idle? && s.hist.submissions == 0
    ensures Sent(s.vars.id) in s.hist.log && Expired(s.vars.id) in s.hist.log
  {
    s := FirstSession();
    s := ProposalSent(s);
    var id := s.vars.id;
    s := Walk(s, Bot(ApproveTake(id)));
    s := Walk(s, Proc(Timeout));
    s := AnsweredTooLate(s);
  }

  lemma AnsweredTooLate(s: World) returns (t: World)
    requires Reachable(s) && s.pc.TimedOut? && Ready(s) && s.vars.id in s.desk.held && s.vars.id in s.desk.channels
    requires s.desk.slot.None? && !s.desk.channels[s.vars.id].rxGone
    ensures Reachable(t) && t.pc.Idle? && t.hist.submissions == 0
    ensures Sent(t.vars.id) in t.hist.log && Expired(t.vars.id) in t.hist.log
  {
    var id := s.vars.id;
    t := Walk(s, Bot(ApproveSend(id)));
    assert t.hist.log[|t.hist.log| - 1] == Sent(id);
    t := Walk(t, Proc(DropReceiver));
    assert t.hist.log[|t.hist.log| - 2] == Sent(id) && t.hist.log[|t.hist.log| - 1] == Expired(id);
    t := Walk(t, Proc(Clear));
  }

  // ---------------------------------------------------------------------
  // Pauses
  // ---------------------------------------------------------------------

  /** A `/pause` confirmed during the approval wait does not stop the proposal
      awaiting it: row and memory are paused and the next step submits. */
  lemma PauseDuringApprovalIsTooLate() returns (s: World)
    ensures Reachable(s) && s.mem.operatorPause && RowPaused(s)
    ensures ProcEnabled(s, Submit) && ProcApply(s, Submit).hist.submissions == s.hist.submissions + 1
  {
    s := FirstSession();
    s := ProposalSent(s);
    s := PausedWhileAwaiting(s);
    s := ApprovedWhileAwaiting(s);
    s := Walk(s, Proc(Receive));
    s := Walk(s, Proc(Clear));
  }

  lemma PausedWhileAwaiting(s: World) returns (t: World)
    requires Reachable(s) && Proposed(s) && Ready(s)
    ensures Reachable(t) && Proposed(t) && t.cfg == LIVE_WITH_BOT && t.mem.operatorPause && RowPaused(t)
  {
    t := Walk(s, Bot(FlagRow(true)));
    t := Walk(t, Bot(FlagMemory(true)));
  }

  lemma ApprovedWhileAwaiting(s: World) returns (t: World)
    requires Reachable(s) && Proposed(s) && s.cfg == LIVE_WITH_BOT && s.mem.operatorPause && RowPaused(s)
    ensures Reachable(t) && t.pc.Awaiting? && Waiting(t).value == Some(true)
    ensures t.cfg == LIVE_WITH_BOT && t.mem.operatorPause && RowPaused(t)
  {
    var id := s.vars.id;
    t := Walk(s, Bot(ApproveTake(id)));
    t := Walk(t, Bot(ApproveSend(id)));
  }

  /** A `/pause` lost between its halves: the tick in progress clones the state
      after the row was paused and before memory was, and writes the clone last.
      The operator was told "PAUSED"; after a restart the pause is gone. */
  lemma PauseLostBetweenHalves() returns (s: World)
    ensures Reachable(s) && Running(s) && s.flags == multiset{} && s.mem.operatorPause && !RowPaused(s)
  {
    s := FirstSession();
    var peak := s.mem.peakPnl;
    s := Walk(s, Proc(TickArrives(NewHigh(peak))));
    s := Walk(s, Proc(ReadBefore));
    s := LostDuringWrite(s);
  }

  lemma LostDuringWrite(s: World) returns (t: World)
    requires Reachable(s) && s.pc.Evaluating? && Ready(s)
    requires s.vars.before == s.mem && s.vars.update == NewHigh(s.mem.peakPnl)
    ensures Reachable(t) && Running(t) && t.flags == multiset{} && t.mem.operatorPause && !RowPaused(t)
  {
    NewHighWrites(s);
    t := Walk(s, Proc(Evaluate));
    t := LostDuringClone(t);
  }

  lemma LostDuringClone(s: World) returns (t: World)
    requires Reachable(s) && s.pc.Cloning? && WillWrite(s) && !s.mem.operatorPause && s.row.Some?
    requires s.cfg == LIVE_WITH_BOT && s.flags == multiset{}
    ensures Reachable(t) && Running(t) && t.flags == multiset{} && t.mem.operatorPause && !RowPaused(t)
  {
    t := Walk(s, Bot(FlagRow(true)));
    t := Walk(t, Proc(Clone));
    t := Walk(t, Bot(FlagMemory(true)));
    t := Walk(t, Proc(Persist(true)));
  }

  // ---------------------------------------------------------------------
  // Halts
  // ---------------------------------------------------------------------

  const LIVE_WITH_LIMIT := Config(Live, true, true, false, Limits(Some(10.0), None, None))

  /** In the middle of a wide range, with this net P&L: the signal holds. */
  function Calm(netPnl: real): PoolUpdate {
    PoolUpdate(0, -1000, 1000, netPnl, 0.0, 0.0, None)
  }

  /** A session with a 10 percent drawdown limit whose high is stored. */
  predicate Limited(s: World, peak: real) {
    && s.cfg == LIVE_WITH_LIMIT && s.mem == FRESH_STATE.(peakPnl := peak, currentDrawdownPct := 0.0)
    && s.row == Some(s.mem)
  }

  lemma LimitedSession() returns (s: World)
    ensures Reachable(s) && s.pc.Idle? && Limited(s, 0.0)
  {
    var locals := Locals(Calm(0.0), FRESH_STATE, Continue, FRESH_STATE, 0, false);
    s := World(None, 1, LIVE_WITH_LIMIT, Down, FRESH_STATE, locals, EMPTY_DESK, multiset{}, History(0, [], [], [], 0));
    assert Init(s) && Possible(s, []) && Final(s, []) == s;
    s := Walk(s, Env(Launch(LIVE_WITH_LIMIT)));
    s := Walk(s, Proc(Load(true)));
    s := Walk(s, Proc(Reset(true)));
  }

  lemma StepToTen(st: RiskState)
    requires st == FRESH_STATE
    ensures Step(LIVE_WITH_LIMIT.limits, st, SnapshotOf(Calm(10.0)), None) == (st.(peakPnl := 10.0), Continue)
  {
    assert (10.0 - 10.0) / 10.0 * 100.0 == 0.0;
  }

  lemma HighStored(s: World) returns (t: World)
    requires Reachable(s) && s.pc.Idle? && Limited(s, 0.0)
    ensures Reachable(t) && t.pc.HaltGate? && Limited(t, 10.0) && t.vars.action == Continue && t.vars.update == Calm(10.0)
  {
    t := Walk(s, Proc(TickArrives(Calm(10.0))));
    t := Walk(t, Proc(ReadBefore));
    StepToTen(t.mem);
    t := Walk(t, Proc(Evaluate));
    t := Walk(t, Proc(Clone));
    t := Walk(t, Proc(Persist(true)));
  }

  lemma TickOver(s: World) returns (t: World)
    requires Reachable(s) && s.pc.HaltGate? && Limited(s, 10.0) && s.vars.action == Continue && s.vars.update == Calm(10.0)
    ensures Reachable(t) && t.pc.Idle? && Limited(t, 10.0)
  {
    t := Walk(s, Proc(PassHaltGate));
    t := Walk(t, Proc(PassOperatorGate));
    t := Walk(t, Proc(Decide));
  }

  lemma FallEvaluated(s: World, mem: RiskState, action: RiskAction)
    requires s.pc.Evaluating?
    requires Step(s.cfg.limits, s.mem, SnapshotOf(s.vars.update), s.vars.update.driftMargin) == (mem, action)
    ensures var t := ProcApply(s, Evaluate);
            t == s.(pc := Cloning, mem := mem, vars := s.vars.(action := action), hist := t.hist)
  {
  }

  lemma FallFromTen(st: RiskState) returns (dd: real)
    requires st == FRESH_STATE.(peakPnl := 10.0, currentDrawdownPct := 0.0)
    ensures FallsBy(LIVE_WITH_LIMIT.limits, st, SnapshotOf(Calm(0.0)), dd)
  {
    dd := 100.0;
  }

  lemma UpdateWaits(s: World) returns (t: World)
    requires Reachable(s) && s.pc.Idle? && Limited(s, 10.0)
    ensures Reachable(t) && t.pc.Evaluating? && Limited(t, 10.0) && t.vars.update == Calm(0.0) && !t.vars.before.haltFlag
  {
    t := Walk(s, Proc(TickArrives(Calm(0.0))));
    t := Walk(t, Proc(ReadBefore));
  }

  lemma HaltRaised(s: World) returns (t: World)
    requires Reachable(s) && s.pc.Evaluating? && Limited(s, 10.0) && s.vars.update == Calm(0.0) && !s.vars.before.haltFlag
    ensures Reachable(t) && t.pc.Cloning? && t.cfg == LIVE_WITH_LIMIT
    ensures Unsaved(t) && !t.vars.before.haltFlag
  {
    var dd := FallFromTen(s.mem);
    FallHalts(s.cfg.limits, s.mem, SnapshotOf(s.vars.update), None, dd);
    FallEvaluated(s, s.mem.(currentDrawdownPct := dd, haltFlag := true), HaltAll(dd));
    t := Walk(s, Proc(Evaluate));
  }

  lemma HaltUnstored(s: World) returns (t: World)
    requires Reachable(s) && s.pc.Cloning? && s.cfg == LIVE_WITH_LIMIT
    requires Unsaved(s) && !s.vars.before.haltFlag
    ensures Reachable(t) && Unsaved(t) && !WritePending(t) && t.cfg == LIVE_WITH_LIMIT
  {
    t := Walk(s, Proc(Clone));
    t := Walk(t, Proc(Persist(false)));
  }

  /** A halt lost by one failed write: P&L 10, then 0, under a limit of 10 percent.
      The process is halted in memory, the row is not, no write is pending, and
      restarting it leads to a running process that is not halted. */
  lemma HaltForgotten() returns (halted: World, steps: seq<WorldStep>, s: World)
    ensures Reachable(halted) && Unsaved(halted) && !WritePending(halted)
    ensures Leads(halted, steps, s) && Running(s) && s.cfg == halted.cfg && !s.mem.haltFlag
  {
    halted := LimitedSession();
    halted := HighStored(halted);
    halted := TickOver(halted);
    halted := UpdateWaits(halted);
    halted := HaltRaised(halted);
    halted := HaltUnstored(halted);
    steps, s := RestartForgets(halted);
  }

  // ---------------------------------------------------------------------
  // Ids
  // ---------------------------------------------------------------------

  /** Two proposals in second 1 and a restart in second 2: the new process hands
      out id 2 again. */
  lemma IdRepeatsAfterRestart() returns (s: World)
    ensures Reachable(s) && s.hist.runs == [Run(1, 2), Run(2, 1)]
    ensures HandedOut(s.hist.runs[0], 2) && HandedOut(s.hist.runs[1], 2)
    ensures !DistinctAcrossRuns(s.hist.runs)
  {
    s := TwoInOneSecond();
    s := Walk(s, Env(ClockAdvances));
    s := Restarted(s);
    s := ProposalSent(s);
    SecondIdRepeats(s.hist.runs);
  }

  lemma SecondIdRepeats(runs: seq<Run>)
    requires runs == [Run(1, 2), Run(2, 1)]
    ensures HandedOut(runs[0], 2) && HandedOut(runs[1], 2) && !DistinctAcrossRuns(runs)
  {
    assert HandedOut(runs[0], 2) && HandedOut(runs[1], 2);
  }

  lemma TwoInOneSecond() returns (s: World)
    ensures Reachable(s) && !s.pc.Down? && Ready(s) && s.now == 1 && s.hist.runs == [Run(1, 2)]
  {
    s := FirstSession();
    s := ProposalSent(s);
    s := TimedOutUnanswered(s);
    s := ProposalSent(s);
  }
}
