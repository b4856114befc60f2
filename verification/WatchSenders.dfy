/** Where a proposal's sender is: in the slot, with a handler, or gone. What the
    wait for an answer can see follows from it (src/bot/proposal.rs:98-131,
    src/bot/commands.rs:244-263). */
module WatchSenders {
  import opened Numerics
  import opened Proposal
  import opened WatchLoop
  import opened WatchSafety

  /** The sender of this proposal still exists. */
  predicate HasSender(d: Desk, id: nat) {
    d.slot == Some(id) || id in d.held
  }

  /** A channel's sender is gone exactly when neither slot nor handlers have it; an
      answer is `true` and consumed the sender; nobody holds a sender twice. */
  ghost predicate SendersKept(d: Desk) {
    && (forall id | id in d.channels :: d.channels[id].txGone <==> !HasSender(d, id))
    && (forall id | id in d.channels && d.channels[id].value.Some? ::
          d.channels[id].value == Some(true) && !HasSender(d, id))
    && (forall id: nat :: d.held[id] <= 1)
  }

  lemma InstallKeeps(d: Desk, now: nat)
    requires DeskInv(d) && SendersKept(d) && d.slot.None?
    ensures SendersKept(InstallOn(d, NextId(d.nextId, now)))
  {
  }

  lemma ClearKeeps(d: Desk, id: nat)
    requires DeskInv(d) && SendersKept(d)
    ensures SendersKept(ClearOn(d, id)) && SendersKept(DropRx(d, id))
  {
  }

  lemma TakeKeeps(d: Desk, id: nat)
    requires DeskInv(d) && SendersKept(d) && d.slot == Some(id)
    ensures SendersKept(TakeOn(d, id))
  {
    assert id !in d.held;
  }

  lemma AbortKeeps(d: Desk, id: nat)
    requires DeskInv(d) && SendersKept(d) && id in d.held
    ensures SendersKept(DropTx(d, id).(held := d.held - multiset{id}))
  {
  }

  lemma SendKeeps(d: Desk, id: nat)
    requires DeskInv(d) && SendersKept(d) && id in d.held && id in d.channels
    ensures SendersKept(SendOn(d, id))
  {
    AbortKeeps(d, id);
  }

  lemma ProcKeeps(s: World, step: ProcStep)
    requires DeskInv(s.desk) && SlotInv(s.pc, s.vars.id, s.desk) && SendersKept(s.desk) && ProcEnabled(s, step)
    ensures SendersKept(ProcApply(s, step).desk)
  {
    DeskAfterStep(s, step);
    if step.Install? {
      InstallKeeps(s.desk, s.now);
    } else {
      ClearKeeps(s.desk, s.vars.id);
    }
  }

  lemma BotKeeps(s: World, step: BotStep)
    requires DeskInv(s.desk) && SendersKept(s.desk) && BotEnabled(s, step)
    ensures SendersKept(BotApply(s, step).desk)
  {
    match step
    case ApproveTake(id) =>
      if s.desk.slot == Some(id) {
        TakeKeeps(s.desk, id);
      }
    case ApproveSend(id) => SendKeeps(s.desk, id);
    case ApproveAbort(id) => AbortKeeps(s.desk, id);
    case _ =>
  }

  /** While the process runs, and before. */
  ghost predicate SenderInv(s: World) {
    !s.pc.Down? ==> SendersKept(s.desk)
  }

  lemma SenderInvStep(s: World, step: WorldStep)
    requires Inv(s) && SenderInv(s) && Enabled(s, step)
    ensures SenderInv(Apply(s, step))
  {
    match step
    case Proc(p) =>
      if Running(s) {
        ProcKeeps(s, p);
      } else {
        DeskAfterStep(s, p);
      }
    case Bot(b) => BotKeeps(s, b);
    case Env(_) =>
  }

  lemma {:induction false} SenderInvRun(s: World, steps: seq<WorldStep>)
    requires Inv(s) && SenderInv(s) && Possible(s, steps)
    ensures SenderInv(Final(s, steps))
    decreases |steps|
  {
    if steps != [] {
      InvStep(s, steps[0]);
      SenderInvStep(s, steps[0]);
      SenderInvRun(Apply(s, steps[0]), steps[1..]);
    }
  }

  lemma ReachableSenderInv(s: World)
    requires Reachable(s)
    ensures SenderInv(s)
  {
    var init, steps :| Init(init) && Possible(init, steps) && Final(init, steps) == s;
    SenderInvRun(init, steps);
  }

  lemma AwaitedChannel(s: World)
    requires s.pc.Awaiting? && SlotInv(s.pc, s.vars.id, s.desk) && SendersKept(s.desk)
    ensures ProcEnabled(s, Receive) <==> Waiting(s).value == Some(true)
    ensures ProcEnabled(s, ReceiveClosed) <==> Waiting(s).value.None? && !HasSender(s.desk, s.vars.id)
    ensures ProcEnabled(s, Timeout) <==> HasSender(s.desk, s.vars.id)
    ensures HasSender(s.desk, s.vars.id) ==> Waiting(s).value.None?
  {
    assert s.vars.id in s.desk.channels;
  }

  /** In every reachable world in which the processor awaits an answer exactly one of
      three things can happen: it receives `true` if a handler has sent it; the
      channel is closed if a handler took the sender and lost it; and otherwise the
      sender is still pending or with a handler, and only time can pass. */
  lemma AwaitingMeaning(s: World)
    requires Reachable(s) && s.pc.Awaiting?
    ensures ProcEnabled(s, Receive) <==> Waiting(s).value == Some(true)
    ensures ProcEnabled(s, ReceiveClosed) <==> Waiting(s).value.None? && !HasSender(s.desk, s.vars.id)
    ensures ProcEnabled(s, Timeout) <==> HasSender(s.desk, s.vars.id)
    ensures HasSender(s.desk, s.vars.id) ==> Waiting(s).value.None?
  {
    ReachableInv(s);
    ReachableSenderInv(s);
    AwaitedChannel(s);
  }
}
