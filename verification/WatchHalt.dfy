/** When a drawdown halt reaches the database if writes may fail
    (src/main.rs:1305-1390, src/strategy/risk_monitor.rs:196-234). */
module WatchHalt {
  import opened Numerics
  import opened WatchLoop
  import opened WatchSafety
  import opened WatchRuns
  import opened WatchPause

  /** The tick in progress has a write before it or under way. */
  predicate WritePending(s: World) {
    s.pc.Persisting? || WillWrite(s)
  }

  /** The first write of the run succeeds. */
  predicate FirstWriteLands(steps: seq<WorldStep>) {
    if steps == [] then false
    else if steps[0].Proc? && steps[0].p.Persist? then steps[0].p.landed
    else FirstWriteLands(steps[1..])
  }

  /** Halted in memory, not in the row. */
  predicate Unsaved(s: World) {
    Running(s) && s.cfg.hasDb && s.mem.haltFlag && !RowHalted(s)
  }

  predicate IsWrite(step: WorldStep) {
    step.Proc? && step.p.Persist?
  }

  /** A write of the risk state that succeeds. */
  predicate Lands(step: WorldStep) {
    step == Proc(Persist(true))
  }

  ghost predicate SomeWriteLands(steps: seq<WorldStep>) {
    exists i | 0 <= i < |steps| :: Lands(steps[i])
  }

  // ---------------------------------------------------------------------
  // With commands: any write that lands carries the halt
  // ---------------------------------------------------------------------

  lemma RunsOn(s: World, step: WorldStep)
    requires Running(s) && Enabled(s, step) && !IsStop(step)
    ensures Running(Apply(s, step)) && Apply(s, step).cfg == s.cfg
  {
  }

  lemma {:induction false} SavedStays(s: World, steps: seq<WorldStep>)
    requires Inv(s) && RowHalted(s) && Running(s) && Possible(s, steps) && NoStop(steps)
    ensures RowHalted(Final(s, steps))
    decreases |steps|
  {
    if steps != [] {
      InvStep(s, steps[0]);
      HaltedRowStays(s, steps[0]);
      RunsOn(s, steps[0]);
      SavedStays(Apply(s, steps[0]), steps[1..]);
    }
  }

  lemma UnsavedProc(s: World, step: ProcStep)
    requires Unsaved(s) && HaltInv(s) && ProcEnabled(s, step)
    ensures var t := ProcApply(s, step); if step == Persist(true) then RowHalted(t) else Unsaved(t)
  {
  }

  lemma UnsavedStep(s: World, step: WorldStep)
    requires Unsaved(s) && HaltInv(s) && Enabled(s, step) && !IsStop(step)
    ensures var t := Apply(s, step); if Lands(step) then RowHalted(t) else Unsaved(t)
  {
    if step.Proc? {
      UnsavedProc(s, step.p);
    }
  }

  lemma FirstOrLater(steps: seq<WorldStep>)
    requires steps != []
    ensures SomeWriteLands(steps) <==> Lands(steps[0]) || SomeWriteLands(steps[1..])
  {
    if SomeWriteLands(steps[1..]) {
      var i :| 0 <= i < |steps[1..]| && Lands(steps[1..][i]);
      assert Lands(steps[i + 1]);
    }
  }

  /** Within one process, whatever commands arrive: a halt that is not in the row
      yet gets there if and only if some later write lands. */
  lemma {:induction false} HaltReachesRowByWriteIff(s: World, steps: seq<WorldStep>)
    requires Inv(s) && Unsaved(s) && Possible(s, steps) && NoStop(steps)
    ensures RowHalted(Final(s, steps)) <==> SomeWriteLands(steps)
    decreases |steps|
  {
    if steps != [] {
      var t := Apply(s, steps[0]);
      InvStep(s, steps[0]);
      UnsavedStep(s, steps[0]);
      FirstOrLater(steps);
      if Lands(steps[0]) {
        RunsOn(s, steps[0]);
        SavedStays(t, steps[1..]);
      } else {
        HaltReachesRowByWriteIff(t, steps[1..]);
      }
    }
  }

  // ---------------------------------------------------------------------
  // Without commands: one write, and it is not repeated
  // ---------------------------------------------------------------------

  /** A halted evaluation changes nothing, so only what already differed is written. */
  lemma PendingProc(s: World, step: ProcStep)
    requires s.mem.haltFlag && ProcEnabled(s, step) && Running(s)
    ensures WritePending(ProcApply(s, step)) <==> WritePending(s) && !step.Persist?
    ensures step.Persist? ==> WritePending(s)
  {
  }

  lemma PendingStep(s: World, step: WorldStep)
    requires Unsaved(s) && Enabled(s, step) && !TouchesPause(step) && !IsStop(step)
    ensures WritePending(Apply(s, step)) <==> WritePending(s) && !IsWrite(step)
    ensures IsWrite(step) ==> WritePending(s)
  {
    if step.Proc? {
      PendingProc(s, step.p);
    }
  }

  /** With no write before it no write happens. */
  lemma {:induction false} OneWrite(s: World, steps: seq<WorldStep>)
    requires Inv(s) && Unsaved(s) && Possible(s, steps) && Untouched(steps) && NoStop(steps)
    ensures SomeWriteLands(steps) <==> WritePending(s) && FirstWriteLands(steps)
    decreases |steps|
  {
    if steps != [] {
      InvStep(s, steps[0]);
      UnsavedStep(s, steps[0]);
      PendingStep(s, steps[0]);
      FirstOrLater(steps);
      if !Lands(steps[0]) {
        OneWrite(Apply(s, steps[0]), steps[1..]);
      }
    }
  }

  /** Without operator commands: the halt gets there if and only if the tick that
      raised it still has its write before it, and that one write lands. There is
      no second attempt. */
  lemma HaltReachesRowIff(s: World, steps: seq<WorldStep>)
    requires Inv(s) && Unsaved(s) && Possible(s, steps) && Untouched(steps) && NoStop(steps)
    ensures RowHalted(Final(s, steps)) <==> WritePending(s) && FirstWriteLands(steps)
  {
    HaltReachesRowByWriteIff(s, steps);
    OneWrite(s, steps);
  }

  // ---------------------------------------------------------------------
  // A command inside a later tick makes the monitor write again
  // ---------------------------------------------------------------------

  /** `steps` is a run of one process from s that ends with the halt in the row. */
  ghost predicate Saves(s: World, steps: seq<WorldStep>) {
    Possible(s, steps) && NoStop(steps) && RowHalted(Final(s, steps))
  }

  lemma ThenSaves(s: World, step: WorldStep, steps: seq<WorldStep>) returns (all: seq<WorldStep>)
    requires Enabled(s, step) && !IsStop(step) && Saves(Apply(s, step), steps)
    ensures Saves(s, all)
  {
    all := [step] + steps;
    assert all[0] == step && all[1..] == steps;
  }

  lemma SavedByPendingWrite(s: World) returns (steps: seq<WorldStep>)
    requires HaltInv(s) && Unsaved(s) && s.pc.Cloning? && WillWrite(s)
    ensures Saves(s, steps)
  {
    var cloned := ProcApply(s, Clone);
    var none: seq<WorldStep> := [];
    assert Saves(ProcApply(cloned, Persist(true)), none);
    steps := ThenSaves(cloned, Proc(Persist(true)), none);
    steps := ThenSaves(s, Proc(Clone), steps);
  }

  lemma SavedByToggle(s: World) returns (steps: seq<WorldStep>)
    requires HaltInv(s) && Unsaved(s) && s.pc.Evaluating? && s.vars.before == s.mem && s.cfg.telegram
    ensures Saves(s, steps)
  {
    var paused := !s.mem.operatorPause;
    var half := BotApply(s, FlagRow(paused));
    var toggled := BotApply(half, FlagMemory(paused));
    HaltInvEvaluate(toggled);
    steps := SavedByPendingWrite(ProcApply(toggled, Evaluate));
    steps := ThenSaves(toggled, Proc(Evaluate), steps);
    steps := ThenSaves(half, Bot(FlagMemory(paused)), steps);
    steps := ThenSaves(s, Bot(FlagRow(paused)), steps);
  }

  /** With the bot an unsaved halt can always still be saved between ticks: by a
      pause or resume command that lands inside the next tick. */
  lemma CommandCanSave(s: World, update: PoolUpdate) returns (steps: seq<WorldStep>)
    requires HaltInv(s) && Unsaved(s) && s.pc.Idle? && s.cfg.telegram
    ensures Saves(s, steps)
  {
    var arrived := ProcApply(s, TickArrives(update));
    steps := SavedByToggle(ProcApply(arrived, ReadBefore));
    steps := ThenSaves(arrived, Proc(ReadBefore), steps);
    steps := ThenSaves(s, Proc(TickArrives(update)), steps);
  }

  // ---------------------------------------------------------------------
  // Restarts
  // ---------------------------------------------------------------------

  /** Any restart before that forgets the halt. */
  lemma RestartForgets(s: World) returns (steps: seq<WorldStep>, t: World)
    requires Unsaved(s) && StartAllowed(s.cfg)
    ensures Leads(s, steps, t) && Running(t) && t.cfg == s.cfg && !t.mem.haltFlag
  {
    var down := EnvApply(s, Stop);
    var loading := EnvApply(down, Launch(s.cfg));
    var loaded := ProcApply(loading, Load(true));
    t := ProcApply(loaded, Reset(true));
    LeadsNowhere(t);
    steps := First(loaded, Proc(Reset(true)), [], t);
    steps := First(loading, Proc(Load(true)), steps, t);
    steps := First(down, Env(Launch(s.cfg)), steps, t);
    steps := First(s, Env(Stop), steps, t);
  }

  /** A new process takes its flags from the row, none without one, with mark and
      drawdown at 0 in row and memory; so it is halted exactly when the row is. */
  lemma RestartReadsRow(s: World)
    requires s.pc.Loading? && s.cfg.hasDb
    ensures var t := ProcApply(ProcApply(s, Load(true)), Reset(true));
            && Running(t) && t.row == Some(t.mem) && t.mem.peakPnl == 0.0 && t.mem.currentDrawdownPct == 0.0
            && (t.mem.haltFlag <==> RowHalted(s))
            && (t.mem.pauseFlag <==> s.row.Some? && s.row.value.pauseFlag)
            && (t.mem.operatorPause <==> s.row.Some? && s.row.value.operatorPause)
  {
  }
}
