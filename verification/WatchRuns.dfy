/** Building runs of the watch process step by step. */
module WatchRuns {
  import opened WatchLoop
  import opened WatchSafety

  // ---------------------------------------------------------------------
  // Kinds of steps
  // ---------------------------------------------------------------------

  predicate TouchesPause(step: WorldStep) {
    (step.Bot? && (step.b.FlagRow? || step.b.FlagMemory?)) || (step.Env? && step.e.OperatorSql?)
  }

  /** No pause or resume command acts, and nobody edits the row by hand. */
  ghost predicate Untouched(steps: seq<WorldStep>) {
    forall i | 0 <= i < |steps| :: !TouchesPause(steps[i])
  }

  predicate IsStop(step: WorldStep) {
    step.Env? && step.e.Stop?
  }

  /** The process neither crashes nor exits. */
  ghost predicate NoStop(steps: seq<WorldStep>) {
    forall i | 0 <= i < |steps| :: !IsStop(steps[i])
  }

  // ---------------------------------------------------------------------
  // Runs
  // ---------------------------------------------------------------------

  lemma {:induction false} RunAppend(s: World, steps: seq<WorldStep>, step: WorldStep)
    requires Possible(s, steps) && Enabled(Final(s, steps), step)
    ensures Possible(s, steps + [step]) && Final(s, steps + [step]) == Apply(Final(s, steps), step)
    decreases |steps|
  {
    if steps == [] {
      assert [step][1..] == [];
    } else {
      RunAppend(Apply(s, steps[0]), steps[1..], step);
      assert (steps + [step])[1..] == steps[1..] + [step];
    }
  }

  lemma ReachNext(s: World, step: WorldStep)
    requires Reachable(s) && Enabled(s, step)
    ensures Reachable(Apply(s, step))
  {
    var init, steps :| Init(init) && Possible(init, steps) && Final(init, steps) == s;
    RunAppend(init, steps, step);
  }

  /** One more step of a reachable world. */
  lemma Walk(s: World, step: WorldStep) returns (s': World)
    requires Reachable(s) && Enabled(s, step)
    ensures Reachable(s') && s' == Apply(s, step)
  {
    ReachNext(s, step);
    s' := Apply(s, step);
  }

  /** `steps` is an untouched run from s to t. */
  ghost predicate Leads(s: World, steps: seq<WorldStep>, t: World) {
    Possible(s, steps) && Final(s, steps) == t && Untouched(steps)
  }

  lemma LeadsNowhere(s: World)
    ensures Leads(s, [], s)
  {
  }

  /** A step in front of a run. */
  lemma First(s: World, step: WorldStep, steps: seq<WorldStep>, t: World) returns (all: seq<WorldStep>)
    requires Enabled(s, step) && !TouchesPause(step) && Leads(Apply(s, step), steps, t)
    ensures Leads(s, all, t)
  {
    all := [step] + steps;
    assert all[0] == step && all[1..] == steps;
  }

  // ---------------------------------------------------------------------
  // The processor is never stuck
  // ---------------------------------------------------------------------

  /** Processor steps left, at most, until the tick in progress is over. */
  function Rank(pc: Pc): nat {
    match pc
    case ReadingBefore => 16
    case Evaluating => 15
    case Cloning => 14
    case Persisting => 13
    case HaltGate => 12
    case OperatorGate => 11
    case Deciding => 10
    case Installing => 9
    case Sending => 8
    case Awaiting => 7
    case TimedOut => 6
    case Clearing => 5
    case SendFailed => 4
    case DroppingFailed => 3
    case Submitting => 2
    case _ => 0
  }

  /** Past the write of the risk state. */
  predicate PastWrite(pc: Pc) {
    pc.HaltGate? || pc.OperatorGate? || BeyondGates(pc)
  }

  /** The processor's next step; a message that could be sent is not. */
  function NextStep(s: World): ProcStep
    requires PastWrite(s.pc)
  {
    match s.pc
    case HaltGate => PassHaltGate
    case OperatorGate => PassOperatorGate
    case Deciding => Decide
    case Installing => Install
    case Sending => Send(false)
    case Awaiting =>
      if Waiting(s).value.Some? then Receive else if Waiting(s).txGone then ReceiveClosed else Timeout
    case TimedOut => DropReceiver
    case Clearing => Clear
    case SendFailed => ClearFailed
    case DroppingFailed => DropFailed
    case Submitting => Submit
  }

  lemma NextIsEnabled(s: World)
    requires PastWrite(s.pc)
    ensures ProcEnabled(s, NextStep(s))
  {
  }

  /** Past the write a tick only gets closer to its end, and changes neither the
      shared state nor the row. */
  lemma TickProgresses(s: World)
    requires PastWrite(s.pc)
    ensures ProcEnabled(s, NextStep(s))
    ensures var s' := ProcApply(s, NextStep(s));
            && Rank(s'.pc) < Rank(s.pc) && (PastWrite(s'.pc) || s'.pc.Idle?)
            && s'.mem == s.mem && s'.row == s.row && s'.flags == s.flags && s'.cfg == s.cfg
  {
    NextIsEnabled(s);
  }
}
