/** Exactly when the bot's "Executing rebalance" is followed by execution
    (src/bot/commands.rs:259-279, src/bot/proposal.rs:73-131, src/main.rs:1556-1618). */
module WatchApproval {
  import opened Numerics
  import opened Risk
  import opened Proposal
  import opened WatchLoop
  import opened WatchSafety
  import opened WatchRuns

  // ---------------------------------------------------------------------
  // Live receivers and finished events
  // ---------------------------------------------------------------------

  /** Only the active proposal can still have its receiver. */
  ghost predicate OneReceiver(s: World) {
    forall id | id in s.desk.channels && !s.desk.channels[id].rxGone :: OwnsReceiver(s.pc) && id == s.vars.id
  }

  /** What a processor step logs. */
  function Logged(s: World, step: ProcStep): seq<Event> {
    match step
    case Evaluate => [Evaluated(s.hist.n, Step(s.cfg.limits, s.mem, SnapshotOf(s.vars.update), s.vars.update.driftMargin).1)]
    case PassOperatorGate => [GateRead(s.hist.n, s.mem.operatorPause)]
    case Decide => [Decided(s.hist.n, DecisionOn(s.vars.update))]
    case Install => [Installed(s.hist.n, NextId(s.desk.nextId, s.now))]
    case Receive => if Waiting(s).value == Some(true) then [Received(s.hist.n, s.vars.id)] else [Expired(s.vars.id)]
    case ReceiveClosed => [Expired(s.vars.id)]
    case DropReceiver => [Expired(s.vars.id)]
    case DropFailed => [Expired(s.vars.id)]
    case Submit => if s.cfg.mode.Live? then [Submitted(s.hist.n)] else []
    case _ => []
  }

  lemma ProcLogs(s: World, step: ProcStep)
    requires ProcEnabled(s, step)
    ensures ProcApply(s, step).hist.log == s.hist.log + Logged(s, step)
  {
  }

  /** Every received proposal has lost its receiver. */
  ghost predicate ReceivedGone(d: Desk, log: seq<Event>) {
    forall i | 0 <= i < |log| && log[i].Received? :: log[i].id in d.channels && d.channels[log[i].id].rxGone
  }

  /** A tick submits only as its last act. */
  ghost predicate SubmitsLast(n: nat, over: bool, log: seq<Event>) {
    forall i | 0 <= i < |log| && log[i].Submitted? :: log[i].n < n || (log[i].n == n && over)
  }

  ghost predicate Finished(s: World) {
    ReceivedGone(s.desk, s.hist.log) && SubmitsLast(s.hist.n, s.pc.Idle?, s.hist.log)
  }

  ghost predicate ApprovalInv(s: World) {
    !s.pc.Down? ==> OneReceiver(s) && Finished(s)
  }

  /** The stage after a processor step still owns the receiver it kept. */
  lemma ReceiverStage(s: World, step: ProcStep)
    requires Running(s) && ProcEnabled(s, step)
    ensures var t := ProcApply(s, step);
            && (step.Install? ==> t.vars.id == NextId(s.desk.nextId, s.now) && OwnsReceiver(t.pc))
            && (!step.Install? ==> t.vars.id == s.vars.id)
            && (!step.Install? && OwnsReceiver(s.pc) && !DropsReceiver(step) ==> OwnsReceiver(t.pc))
  {
  }

  lemma OneReceiverProc(s: World, step: ProcStep)
    requires OneReceiver(s) && Running(s) && ProcEnabled(s, step)
    ensures OneReceiver(ProcApply(s, step))
  {
    DeskAfterStep(s, step);
    ReceiverStage(s, step);
  }

  lemma StartHasNoReceiver(s: World, step: ProcStep)
    requires StartInv(s) && !Running(s) && !s.pc.Down? && ProcEnabled(s, step)
    ensures OneReceiver(ProcApply(s, step))
  {
    DeskAfterStep(s, step);
  }

  lemma OneReceiverBot(s: World, step: BotStep)
    requires OneReceiver(s) && BotEnabled(s, step)
    ensures OneReceiver(BotApply(s, step))
  {
  }

  lemma ReceivedGoneLater(d: Desk, d': Desk, log: seq<Event>, more: seq<Event>)
    requires ReceivedGone(d, log) && Moves(d, d') && ReceivedGone(d', more)
    ensures ReceivedGone(d', log + more)
  {
  }

  lemma ReceivedGoneProc(s: World, step: ProcStep)
    requires ReceivedGone(s.desk, s.hist.log) && DeskInv(s.desk) && SlotInv(s.pc, s.vars.id, s.desk)
    requires ProcEnabled(s, step)
    ensures var t := ProcApply(s, step); ReceivedGone(t.desk, t.hist.log)
  {
    var d := DeskAfter(s.desk, s.vars.id, s.now, step);
    DeskAfterStep(s, step);
    MovesAfter(s.desk, s.vars.id, s.now, step);
    ProcLogs(s, step);
    ReceivedGoneLater(s.desk, d, s.hist.log, Logged(s, step));
  }

  lemma SubmitsLastLater(n: nat, over: bool, n': nat, over': bool, log: seq<Event>, more: seq<Event>)
    requires SubmitsLast(n, over, log) && SubmitsLast(n', over', more)
    requires n < n' || (n == n' && (over ==> over'))
    ensures SubmitsLast(n', over', log + more)
  {
  }

  lemma TickCounter(s: World, step: ProcStep)
    requires ProcEnabled(s, step)
    ensures var t := ProcApply(s, step);
            && t.hist.n == (if step.TickArrives? then s.hist.n + 1 else s.hist.n)
            && (s.pc.Idle? <==> step.TickArrives?)
            && (step.Submit? ==> t.pc.Idle?)
  {
  }

  lemma FinishedProc(s: World, step: ProcStep)
    requires Finished(s) && DeskInv(s.desk) && SlotInv(s.pc, s.vars.id, s.desk) && ProcEnabled(s, step)
    ensures Finished(ProcApply(s, step))
  {
    ReceivedGoneProc(s, step);
    ProcLogs(s, step);
    TickCounter(s, step);
    var t := ProcApply(s, step);
    SubmitsLastLater(s.hist.n, s.pc.Idle?, t.hist.n, t.pc.Idle?, s.hist.log, Logged(s, step));
  }

  lemma FinishedStart(s: World, step: ProcStep)
    requires StartInv(s) && !Running(s) && !s.pc.Down? && ProcEnabled(s, step)
    ensures Finished(ProcApply(s, step))
  {
    ProcLogs(s, step);
  }

  lemma BotLogs(s: World, step: BotStep)
    requires BotEnabled(s, step)
    ensures var t := BotApply(s, step);
            && t.hist.n == s.hist.n && t.pc == s.pc
            && (t.hist.log == s.hist.log || (exists id :: t.hist.log == s.hist.log + [Taken(id)] || t.hist.log == s.hist.log + [Sent(id)]))
  {
    match step
    case ApproveTake(id) => assert s.desk.slot == Some(id) ==> BotApply(s, step).hist.log == s.hist.log + [Taken(id)];
    case ApproveSend(id) => assert !s.desk.channels[id].rxGone ==> BotApply(s, step).hist.log == s.hist.log + [Sent(id)];
    case _ =>
  }

  lemma BotMoves(s: World, step: BotStep)
    requires BotEnabled(s, step)
    ensures Moves(s.desk, BotApply(s, step).desk)
  {
    match step
    case ApproveTake(id) => MovesOps(s.desk, id);
    case ApproveSend(id) => MovesOps(s.desk, id);
    case ApproveAbort(id) => MovesOps(s.desk, id);
    case _ =>
  }

  lemma FinishedBot(s: World, step: BotStep)
    requires Finished(s) && BotEnabled(s, step)
    ensures Finished(BotApply(s, step))
  {
    BotLogs(s, step);
    BotMoves(s, step);
  }

  lemma ApprovalInvStep(s: World, step: WorldStep)
    requires Inv(s) && ApprovalInv(s) && Enabled(s, step)
    ensures ApprovalInv(Apply(s, step))
  {
    match step
    case Proc(p) =>
      if Running(s) {
        OneReceiverProc(s, p);
        FinishedProc(s, p);
      } else {
        FinishedStart(s, p);
        StartHasNoReceiver(s, p);
      }
    case Bot(b) =>
      OneReceiverBot(s, b);
      FinishedBot(s, b);
    case Env(_) =>
  }

  lemma {:induction false} ApprovalInvRun(s: World, steps: seq<WorldStep>)
    requires Inv(s) && ApprovalInv(s) && Possible(s, steps)
    ensures ApprovalInv(Final(s, steps))
    decreases |steps|
  {
    if steps != [] {
      InvStep(s, steps[0]);
      ApprovalInvStep(s, steps[0]);
      ApprovalInvRun(Apply(s, steps[0]), steps[1..]);
    }
  }

  lemma ReachableApprovalInv(s: World)
    requires Reachable(s)
    ensures ApprovalInv(s)
  {
    var init, steps :| Init(init) && Possible(init, steps) && Final(init, steps) == s;
    ApprovalInvRun(init, steps);
  }

  // ---------------------------------------------------------------------
  // After the answer
  // ---------------------------------------------------------------------

  /** Number of processor steps in a run. */
  function ProcSteps(steps: seq<WorldStep>): nat {
    if steps == [] then 0 else (if steps[0].Proc? then 1 else 0) + ProcSteps(steps[1..])
  }

  /** The first processor step delivers the proposal message. */
  predicate DeliveredFirst(steps: seq<WorldStep>) {
    if steps == [] then false
    else if steps[0].Proc? then steps[0].p == Send(true)
    else DeliveredFirst(steps[1..])
  }

  /** The processor's stage at the moment of the answer, and what became of the
      message if it was still being sent. */
  predicate WillHear(pc: Pc, steps: seq<WorldStep>) {
    pc.Awaiting? || (pc.Sending? && DeliveredFirst(steps))
  }

  /** What tick n shows for its proposal in the log. */
  ghost predicate Heard(s: World, n: nat, id: nat) {
    Received(n, id) in s.hist.log
  }

  ghost predicate Executed(s: World, n: nat) {
    Submitted(n) in s.hist.log
  }

  lemma HeardLater(log: seq<Event>, more: seq<Event>, e: Event)
    ensures e in log + more <==> e in log || e in more
  {
  }

  /** Where an answered tick stands: processor steps until it is over. */
  ghost predicate WinningStage(s: World, n: nat, id: nat, left: nat) {
    && s.hist.n == n && s.vars.id == id
    && match left
       case 1 => s.pc.Submitting?
       case 2 => s.pc.Clearing? && s.vars.approved
       case _ => left == 3 && s.pc.Awaiting? && Waiting(s).value == Some(true)
  }

  /** The answer is on its way through the processor: `left` steps to go. */
  ghost predicate Winning(s: World, n: nat, id: nat, left: nat) {
    && Running(s)
    && (left > 0 ==> WinningStage(s, n, id, left))
    && (left <= 2 ==> Heard(s, n, id))
    && (left == 0 && s.cfg.mode.Live? ==> Executed(s, n))
  }

  lemma WinningStageProc(s: World, n: nat, id: nat, left: nat, step: ProcStep)
    requires left > 0 && WinningStage(s, n, id, left) && ProcEnabled(s, step)
    ensures var t := ProcApply(s, step);
            && Running(t) && t.cfg == s.cfg
            && (left > 1 ==> WinningStage(t, n, id, left - 1))
            && (left == 3 ==> Logged(s, step) == [Received(n, id)])
            && (left == 1 && s.cfg.mode.Live? ==> Logged(s, step) == [Submitted(n)])
  {
  }

  lemma StaysRunning(s: World, step: ProcStep)
    requires Running(s) && ProcEnabled(s, step)
    ensures Running(ProcApply(s, step)) && ProcApply(s, step).cfg == s.cfg
  {
  }

  lemma WinningProc(s: World, n: nat, id: nat, left: nat, step: ProcStep)
    requires Winning(s, n, id, left) && ProcEnabled(s, step)
    ensures Winning(ProcApply(s, step), n, id, if left == 0 then 0 else left - 1)
  {
    ProcLogs(s, step);
    HeardLater(s.hist.log, Logged(s, step), Received(n, id));
    HeardLater(s.hist.log, Logged(s, step), Submitted(n));
    if left > 0 {
      WinningStageProc(s, n, id, left, step);
    } else {
      StaysRunning(s, step);
    }
  }

  lemma WinningBot(s: World, n: nat, id: nat, left: nat, step: BotStep)
    requires Winning(s, n, id, left) && BotEnabled(s, step)
    ensures Winning(BotApply(s, step), n, id, left)
  {
  }

  /** The tick has given up on its proposal, or is over. */
  predicate LosingStage(s: World, n: nat) {
    && Running(s) && n <= s.hist.n
    && (s.hist.n == n ==>
          s.pc.Idle? || s.pc.SendFailed? || s.pc.DroppingFailed? || s.pc.TimedOut? || (s.pc.Clearing? && !s.vars.approved))
  }

  ghost predicate Losing(s: World, n: nat, id: nat) {
    LosingStage(s, n) && !Heard(s, n, id) && !Executed(s, n)
  }

  lemma LosingStageProc(s: World, n: nat, step: ProcStep)
    requires LosingStage(s, n) && ProcEnabled(s, step)
    ensures LosingStage(ProcApply(s, step), n)
  {
  }

  lemma LosingLogs(s: World, n: nat, id: nat, step: ProcStep)
    requires LosingStage(s, n) && ProcEnabled(s, step)
    ensures Received(n, id) !in Logged(s, step) && Submitted(n) !in Logged(s, step)
  {
  }

  lemma LosingProc(s: World, n: nat, id: nat, step: ProcStep)
    requires Losing(s, n, id) && ProcEnabled(s, step)
    ensures Losing(ProcApply(s, step), n, id)
  {
    LosingStageProc(s, n, step);
    LosingLogs(s, n, id, step);
    ProcLogs(s, step);
    HeardLater(s.hist.log, Logged(s, step), Received(n, id));
    HeardLater(s.hist.log, Logged(s, step), Submitted(n));
  }

  lemma LosingBot(s: World, n: nat, id: nat, step: BotStep)
    requires Losing(s, n, id) && BotEnabled(s, step)
    ensures Losing(BotApply(s, step), n, id)
  {
  }

  /** In a running process only the clock moves besides processor and handlers. */
  lemma ClockKeeps(s: World, step: EnvStep)
    requires Running(s) && EnvEnabled(s, step) && !step.Stop?
    ensures EnvApply(s, step) == s.(now := s.now + 1)
  {
  }

  lemma {:induction false} WinningRun(s: World, n: nat, id: nat, left: nat, steps: seq<WorldStep>)
    requires Winning(s, n, id, left) && Possible(s, steps) && NoStop(steps) && ProcSteps(steps) >= left
    ensures Winning(Final(s, steps), n, id, 0)
    decreases |steps|
  {
    if steps != [] {
      var t := Apply(s, steps[0]);
      match steps[0]
      case Proc(p) =>
        WinningProc(s, n, id, left, p);
        WinningRun(t, n, id, if left == 0 then 0 else left - 1, steps[1..]);
      case Bot(b) =>
        WinningBot(s, n, id, left, b);
        WinningRun(t, n, id, left, steps[1..]);
      case Env(e) =>
        ClockKeeps(s, e);
        WinningRun(t, n, id, left, steps[1..]);
    }
  }

  lemma {:induction false} LosingRun(s: World, n: nat, id: nat, steps: seq<WorldStep>)
    requires Losing(s, n, id) && Possible(s, steps) && NoStop(steps)
    ensures Losing(Final(s, steps), n, id)
    decreases |steps|
  {
    if steps != [] {
      match steps[0] {
        case Proc(p) => LosingProc(s, n, id, p);
        case Bot(b) => LosingBot(s, n, id, b);
        case Env(e) => ClockKeeps(s, e);
      }
      LosingRun(Apply(s, steps[0]), n, id, steps[1..]);
    }
  }

  // ---------------------------------------------------------------------
  // The answer itself
  // ---------------------------------------------------------------------

  /** The world in which the handler has just answered "Executing": its value
      reached a live receiver. */
  ghost predicate JustAnswered(s: World, id: nat) {
    && OwnsReceiver(s.pc) && id == s.vars.id && Waiting(s).value == Some(true)
    && !Heard(s, s.hist.n, id) && !Executed(s, s.hist.n)
  }

  lemma AnswerReachesActive(s: World, id: nat)
    requires Inv(s) && ApprovalInv(s) && BotEnabled(s, ApproveSend(id)) && !s.desk.channels[id].rxGone
    ensures JustAnswered(BotApply(s, ApproveSend(id)), id)
    ensures BotApply(s, ApproveSend(id)).pc == s.pc && BotApply(s, ApproveSend(id)).hist.n == s.hist.n
  {
    var t := BotApply(s, ApproveSend(id));
    assert t.hist.log == s.hist.log + [Sent(id)];
    HeardLater(s.hist.log, [Sent(id)], Received(s.hist.n, id));
    HeardLater(s.hist.log, [Sent(id)], Submitted(s.hist.n));
  }

  lemma AnsweredStage(s: World, id: nat)
    requires JustAnswered(s, id)
    ensures s.pc.Awaiting? ==> Winning(s, s.hist.n, id, 3)
    ensures !s.pc.Awaiting? && !s.pc.Sending? ==> Losing(s, s.hist.n, id)
  {
  }

  lemma AnsweredSend(s: World, id: nat, ok: bool)
    requires JustAnswered(s, id) && s.pc.Sending?
    ensures ok ==> Winning(ProcApply(s, Send(ok)), s.hist.n, id, 3)
    ensures !ok ==> Losing(ProcApply(s, Send(ok)), s.hist.n, id)
  {
  }

  lemma AnsweredBot(s: World, id: nat, step: BotStep)
    requires JustAnswered(s, id) && BotEnabled(s, step)
    ensures JustAnswered(BotApply(s, step), id)
    ensures BotApply(s, step).pc == s.pc && BotApply(s, step).hist.n == s.hist.n
  {
  }

  lemma {:induction false} AnsweredRun(s: World, id: nat, steps: seq<WorldStep>)
    requires JustAnswered(s, id) && Possible(s, steps) && NoStop(steps) && ProcSteps(steps) >= 4
    ensures WillHear(s.pc, steps) ==> Winning(Final(s, steps), s.hist.n, id, 0)
    ensures !WillHear(s.pc, steps) ==> Losing(Final(s, steps), s.hist.n, id)
    decreases |steps|
  {
    AnsweredStage(s, id);
    if s.pc.Awaiting? {
      WinningRun(s, s.hist.n, id, 3, steps);
    } else if !s.pc.Sending? {
      LosingRun(s, s.hist.n, id, steps);
    } else {
      AnsweredWhileSending(s, id, steps);
    }
  }

  lemma {:induction false} AnsweredWhileSending(s: World, id: nat, steps: seq<WorldStep>)
    requires JustAnswered(s, id) && s.pc.Sending? && Possible(s, steps) && NoStop(steps) && ProcSteps(steps) >= 4
    ensures DeliveredFirst(steps) ==> Winning(Final(s, steps), s.hist.n, id, 0)
    ensures !DeliveredFirst(steps) ==> Losing(Final(s, steps), s.hist.n, id)
    decreases |steps|
  {
    var t := Apply(s, steps[0]);
    match steps[0]
    case Proc(p) =>
      AnsweredSend(s, id, p.ok);
      if p.ok {
        WinningRun(t, s.hist.n, id, 3, steps[1..]);
      } else {
        LosingRun(t, s.hist.n, id, steps[1..]);
      }
    case Bot(b) =>
      AnsweredBot(s, id, b);
      AnsweredWhileSending(t, id, steps[1..]);
    case Env(e) =>
      ClockKeeps(s, e);
      AnsweredWhileSending(t, id, steps[1..]);
  }

  /** From an "Executing" reply on, along every run in which the process lives on
      and its processor takes four more steps: the approval is received if and
      only if at the reply the processor was awaiting it, or still sending a
      proposal whose message is then delivered; and in live mode the same decides
      the submission. Never after a timeout or a failed send. */
  lemma ExecutingIsExecutionIff(s: World, id: nat, steps: seq<WorldStep>)
    requires Reachable(s) && BotEnabled(s, ApproveSend(id)) && !s.desk.channels[id].rxGone
    requires Possible(BotApply(s, ApproveSend(id)), steps) && NoStop(steps) && ProcSteps(steps) >= 4
    ensures var t := Final(BotApply(s, ApproveSend(id)), steps);
            && (Heard(t, s.hist.n, id) <==> WillHear(s.pc, steps))
            && (t.cfg.mode.Live? ==> (Executed(t, s.hist.n) <==> WillHear(s.pc, steps)))
  {
    ReachableInv(s);
    ReachableApprovalInv(s);
    AnswerReachesActive(s, id);
    AnsweredRun(BotApply(s, ApproveSend(id)), id, steps);
  }
}
