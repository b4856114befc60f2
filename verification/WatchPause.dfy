/** What a `/pause` guarantees: exactly when it stays in the row, and exactly
    when it stops submissions (src/bot/commands.rs:115-139, src/main.rs:1305-1618). */
module WatchPause {
  import opened Numerics
  import opened Risk
  import opened RiskPersistence
  import opened WatchLoop
  import opened WatchSafety
  import opened WatchRuns

  predicate RowPaused(s: World) {
    s.row.Some? && s.row.value.operatorPause
  }

  /** A clone without the pause is on its way to the row. */
  predicate StaleWrite(s: World) {
    s.pc.Persisting? && !s.vars.copy.operatorPause
  }

  // ---------------------------------------------------------------------
  // From the confirming half on
  // ---------------------------------------------------------------------

  /** Row, memory and any copy on its way to the row all carry the pause. */
  ghost predicate PauseHeld(s: World) {
    && RowPaused(s)
    && (Running(s) && s.cfg.hasDb ==> s.mem.operatorPause)
    && (s.pc.Persisting? || s.pc.Resetting? ==> s.vars.copy.operatorPause)
  }

  lemma PauseHeldProc(s: World, step: ProcStep)
    requires PauseHeld(s) && (InGates(s.pc) || s.pc.Resetting? ==> s.cfg.hasDb) && ProcEnabled(s, step)
    ensures PauseHeld(ProcApply(s, step))
  {
  }

  lemma PauseHeldStep(s: World, step: WorldStep)
    requires PauseHeld(s) && (InGates(s.pc) || s.pc.Resetting? ==> s.cfg.hasDb)
    requires Enabled(s, step) && !TouchesPause(step)
    ensures PauseHeld(Apply(s, step))
  {
    if step.Proc? {
      PauseHeldProc(s, step.p);
    }
  }

  lemma {:induction false} PauseHeldRun(s: World, steps: seq<WorldStep>)
    requires Inv(s) && PauseHeld(s) && Possible(s, steps) && Untouched(steps)
    ensures RowPaused(Final(s, steps))
    decreases |steps|
  {
    if steps != [] {
      PauseHeldStep(s, steps[0]);
      InvStep(s, steps[0]);
      PauseHeldRun(Apply(s, steps[0]), steps[1..]);
    }
  }

  /** The pause stays in the row along every run without further pause commands
      and hand edits, restarts included. */
  ghost predicate Sticks(s: World) {
    forall steps | Possible(s, steps) && Untouched(steps) :: RowPaused(Final(s, steps))
  }

  lemma LostNow(s: World)
    requires !RowPaused(s)
    ensures !Sticks(s)
  {
    var none: seq<WorldStep> := [];
    assert Possible(s, none) && Untouched(none) && Final(s, none) == s;
  }

  lemma LostByStaleWrite(s: World)
    requires StaleWrite(s)
    ensures !Sticks(s)
  {
    var steps := [Proc(Persist(true))];
    assert steps[1..] == [];
    assert Possible(s, steps) && Untouched(steps) && !RowPaused(Final(s, steps));
  }

  lemma HeldSticks(s: World)
    requires Inv(s) && PauseHeld(s)
    ensures Sticks(s)
  {
    forall steps | Possible(s, steps) && Untouched(steps)
      ensures RowPaused(Final(s, steps))
    {
      PauseHeldRun(s, steps);
    }
  }

  /** The world after the handler wrote the pause to memory and answered. */
  function Confirmed(s: World): World
    requires BotEnabled(s, FlagMemory(true))
  {
    BotApply(s, FlagMemory(true))
  }

  /** From the step that confirms a `/pause` on, it sticks exactly when the row
      still carries it and no clone without it is on its way. */
  lemma ConfirmedPauseSticksIff(s: World)
    requires Inv(s) && BotEnabled(s, FlagMemory(true))
    ensures Sticks(Confirmed(s)) <==> RowPaused(s) && !StaleWrite(s)
  {
    InvBot(s, FlagMemory(true));
    if !RowPaused(s) {
      LostNow(Confirmed(s));
    } else if StaleWrite(s) {
      LostByStaleWrite(Confirmed(s));
    } else {
      HeldSticks(Confirmed(s));
    }
  }

  // ---------------------------------------------------------------------
  // The whole handler, with anything between its two halves
  // ---------------------------------------------------------------------

  /** The first half of `/pause`: the row. */
  function RowHalf(s: World): World
    requires BotEnabled(s, FlagRow(true))
  {
    BotApply(s, FlagRow(true))
  }

  /** `between` runs after the first half and lets the second one follow. */
  ghost predicate Between(s: World, between: seq<WorldStep>)
    requires BotEnabled(s, FlagRow(true))
  {
    Possible(RowHalf(s), between) && BotEnabled(Final(RowHalf(s), between), FlagMemory(true))
  }

  /** For arbitrary steps between the halves: what counts is the world the second
      half finds. */
  lemma PauseHandlerSticksIff(s: World, between: seq<WorldStep>)
    requires Inv(s) && BotEnabled(s, FlagRow(true)) && Between(s, between)
    ensures var t := Final(RowHalf(s), between);
            Sticks(Confirmed(t)) <==> RowPaused(t) && !StaleWrite(t)
  {
    InvBot(s, FlagRow(true));
    InvRun(RowHalf(s), between);
    ConfirmedPauseSticksIff(Final(RowHalf(s), between));
  }

  /** The pause sticks whatever else happens between the halves. */
  ghost predicate AlwaysSticks(s: World)
    requires BotEnabled(s, FlagRow(true))
  {
    forall between | Between(s, between) && Untouched(between) :: Sticks(Confirmed(Final(RowHalf(s), between)))
  }

  /** The tick in progress will write: a durable field differs from what it was
      before the evaluation. */
  predicate WillWrite(s: World) {
    (s.pc.Evaluating? || s.pc.Cloning?) && Durable(s.mem) != Durable(s.vars.before)
  }

  /** No clone taken before the second half can lack the pause: memory carries it
      already, or is halted with nothing left to write. */
  predicate NoStaleClone(s: World) {
    !StaleWrite(s) && (s.mem.operatorPause || (s.mem.haltFlag && !WillWrite(s)))
  }

  /** As long as the handler is between its halves. */
  ghost predicate Keeps(s: World) {
    && (s.pc.Loading? || s.pc.Resetting? ==> s.flags == multiset{})
    && (Running(s) && true in s.flags ==> s.cfg.hasDb && RowPaused(s) && NoStaleClone(s))
  }

  lemma KeepsTick(s: World, step: ProcStep)
    requires s.cfg.hasDb && RowPaused(s) && NoStaleClone(s) && Running(s) && ProcEnabled(s, step)
    ensures var s' := ProcApply(s, step); RowPaused(s') && NoStaleClone(s')
  {
  }

  lemma KeepsStart(s: World, step: ProcStep)
    requires Keeps(s) && !Running(s) && ProcEnabled(s, step)
    ensures Keeps(ProcApply(s, step))
  {
  }

  lemma FlagsUnchanged(s: World, step: ProcStep)
    requires Running(s) && ProcEnabled(s, step)
    ensures var s' := ProcApply(s, step); Running(s') && s'.flags == s.flags && s'.cfg == s.cfg
  {
  }

  lemma KeepsBot(s: World, step: BotStep)
    requires Keeps(s) && BotEnabled(s, step) && !step.FlagRow? && !step.FlagMemory?
    ensures Keeps(BotApply(s, step))
  {
  }

  lemma KeepsStep(s: World, step: WorldStep)
    requires Keeps(s) && Enabled(s, step) && !TouchesPause(step)
    ensures Keeps(Apply(s, step))
  {
    match step
    case Proc(p) =>
      if Running(s) {
        FlagsUnchanged(s, p);
        if true in s.flags {
          KeepsTick(s, p);
        }
      } else {
        KeepsStart(s, p);
      }
    case Bot(b) => KeepsBot(s, b);
    case Env(_) =>
  }

  lemma {:induction false} KeepsRun(s: World, steps: seq<WorldStep>)
    requires Keeps(s) && Possible(s, steps) && Untouched(steps)
    ensures Keeps(Final(s, steps))
    decreases |steps|
  {
    if steps != [] {
      KeepsStep(s, steps[0]);
      KeepsRun(Apply(s, steps[0]), steps[1..]);
    }
  }

  lemma NoStaleCloneSticks(s: World)
    requires Inv(s) && BotEnabled(s, FlagRow(true)) && NoStaleClone(s)
    ensures AlwaysSticks(s)
  {
    forall between | Between(s, between) && Untouched(between)
      ensures Sticks(Confirmed(Final(RowHalf(s), between)))
    {
      KeepsRun(RowHalf(s), between);
      PauseHandlerSticksIff(s, between);
    }
  }

  // ---------------------------------------------------------------------
  // How it is lost
  // ---------------------------------------------------------------------

  /** Between reading the durable fields and the evaluation only an operator
      command can change them. */
  predicate BeforeInv(s: World) {
    s.pc.Evaluating? ==> s.vars.before == s.mem.(operatorPause := s.vars.before.operatorPause)
  }

  lemma BeforeInvStep(s: World, step: WorldStep)
    requires BeforeInv(s) && Enabled(s, step)
    ensures BeforeInv(Apply(s, step))
  {
  }

  lemma {:induction false} BeforeInvRun(s: World, steps: seq<WorldStep>)
    requires BeforeInv(s) && Possible(s, steps)
    ensures BeforeInv(Final(s, steps))
    decreases |steps|
  {
    if steps != [] {
      BeforeInvStep(s, steps[0]);
      BeforeInvRun(Apply(s, steps[0]), steps[1..]);
    }
  }

  lemma ReachableBeforeInv(s: World)
    requires Reachable(s)
    ensures BeforeInv(s)
  {
    var init, steps :| Init(init) && Possible(init, steps) && Final(init, steps) == s;
    BeforeInvRun(init, steps);
  }

  /** The processor alone can get an un-paused clone on its way. */
  predicate CanGoStale(s: World) {
    && s.cfg.hasDb && BeforeInv(s) && !s.mem.operatorPause
    && (s.mem.haltFlag ==> WillWrite(s))
  }

  lemma EvaluationStaysStale(s: World)
    requires CanGoStale(s) && s.pc.Evaluating?
    ensures var t := ProcApply(s, Evaluate);
            CanGoStale(t) && t.pc.Cloning? && t.flags == s.flags && t.cfg == s.cfg
  {
    StepContract(s.cfg.limits, s.mem, SnapshotOf(s.vars.update), s.vars.update.driftMargin);
  }

  /** A tick with a new high writes. */
  function NewHigh(peak: real): PoolUpdate {
    PoolUpdate(0, 0, 0, peak + 1.0, 0.0, 0.0, None)
  }

  lemma NewHighWrites(s: World)
    requires s.pc.Evaluating? && s.cfg.hasDb && !s.mem.haltFlag && !s.mem.operatorPause
    requires s.vars.before == s.mem && s.vars.update == NewHigh(s.mem.peakPnl)
    ensures var t := ProcApply(s, Evaluate);
            t.pc.Cloning? && WillWrite(t) && !t.mem.operatorPause && t.flags == s.flags && t.cfg == s.cfg
  {
    StepContract(s.cfg.limits, s.mem, SnapshotOf(s.vars.update), s.vars.update.driftMargin);
    assert SnapshotOf(s.vars.update).netPnl == s.mem.peakPnl + 1.0;
  }

  /** `t` is an un-paused write under way in the same process, same handlers. */
  ghost predicate GoesStale(s: World, steps: seq<WorldStep>, t: World) {
    Leads(s, steps, t) && StaleWrite(t) && t.flags == s.flags && t.cfg == s.cfg
  }

  lemma ClonedNow(s: World) returns (steps: seq<WorldStep>, t: World)
    requires s.pc.Cloning? && WillWrite(s) && !s.mem.operatorPause
    ensures GoesStale(s, steps, t)
  {
    t := ProcApply(s, Clone);
    LeadsNowhere(t);
    steps := First(s, Proc(Clone), [], t);
  }

  lemma FromNewHigh(s: World) returns (steps: seq<WorldStep>, t: World)
    requires s.pc.Evaluating? && s.cfg.hasDb && !s.mem.haltFlag && !s.mem.operatorPause
    requires s.vars.before == s.mem && s.vars.update == NewHigh(s.mem.peakPnl)
    ensures GoesStale(s, steps, t)
  {
    NewHighWrites(s);
    steps, t := ClonedNow(ProcApply(s, Evaluate));
    steps := First(s, Proc(Evaluate), steps, t);
  }

  lemma FromIdle(s: World) returns (steps: seq<WorldStep>, t: World)
    requires s.pc.Idle? && s.cfg.hasDb && !s.mem.haltFlag && !s.mem.operatorPause
    ensures GoesStale(s, steps, t)
  {
    var arrived := ProcApply(s, TickArrives(NewHigh(s.mem.peakPnl)));
    steps, t := FromNewHigh(ProcApply(arrived, ReadBefore));
    steps := First(arrived, Proc(ReadBefore), steps, t);
    steps := First(s, Proc(TickArrives(NewHigh(s.mem.peakPnl))), steps, t);
  }

  /** The processor's next step where nothing un-paused is being written yet. */
  function StepTowardWrite(s: World): ProcStep
    requires Running(s) && !s.pc.Idle?
  {
    if s.pc.ReadingBefore? then ReadBefore
    else if s.pc.Evaluating? then Evaluate
    else if s.pc.Cloning? then Clone
    else if s.pc.Persisting? then Persist(true)
    else NextStep(s)
  }

  lemma StepKeepsStale(s: World)
    requires CanGoStale(s) && Running(s) && !s.pc.Idle? && !StaleWrite(s) && !(s.pc.Cloning? && WillWrite(s))
    ensures ProcEnabled(s, StepTowardWrite(s))
    ensures var t := ProcApply(s, StepTowardWrite(s));
            CanGoStale(t) && Running(t) && Rank(t.pc) < Rank(s.pc) && t.flags == s.flags && t.cfg == s.cfg
  {
    if s.pc.Evaluating? {
      EvaluationStaysStale(s);
    } else if PastWrite(s.pc) {
      TickProgresses(s);
    }
  }

  lemma {:induction false} ProcessorGoesStale(s: World) returns (steps: seq<WorldStep>, t: World)
    requires Running(s) && (StaleWrite(s) || CanGoStale(s))
    ensures GoesStale(s, steps, t)
    decreases Rank(s.pc)
  {
    if StaleWrite(s) {
      steps, t := [], s;
    } else if s.pc.Idle? {
      steps, t := FromIdle(s);
    } else if s.pc.Cloning? && WillWrite(s) {
      steps, t := ClonedNow(s);
    } else {
      StepKeepsStale(s);
      steps, t := ProcessorGoesStale(ProcApply(s, StepTowardWrite(s)));
      steps := First(s, Proc(StepTowardWrite(s)), steps, t);
    }
  }

  /** A complete `/pause` sticks through everything that can happen between its
      halves and after, exactly when at its first half no un-paused clone is on
      its way and memory is paused already, or halted with nothing to write. So a
      first pause of a healthy session can always be lost. */
  lemma PauseAlwaysSticksIff(s: World)
    requires Reachable(s) && BotEnabled(s, FlagRow(true))
    ensures AlwaysSticks(s) <==> NoStaleClone(s)
  {
    ReachableInv(s);
    if NoStaleClone(s) {
      NoStaleCloneSticks(s);
    } else {
      ReachableBeforeInv(s);
      var between, t := ProcessorGoesStale(RowHalf(s));
      PauseHandlerSticksIff(s, between);
      assert Between(s, between) && Untouched(between) && !Sticks(Confirmed(t));
    }
  }
}
