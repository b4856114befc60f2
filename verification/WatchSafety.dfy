/** Safety of every run of the watch process, in every interleaving. */
module WatchSafety {
  import opened Numerics
  import opened Risk
  import opened Proposal
  import opened WatchLoop

  // ---------------------------------------------------------------------
  // Order of events
  // ---------------------------------------------------------------------

  /** The events `es` happened, in this order. */
  predicate InOrder(es: seq<Event>, log: seq<Event>)
    decreases |log|
  {
    if es == [] then true
    else if log == [] then false
    else
      var m, n := |es| - 1, |log| - 1;
      (es[m] == log[n] && InOrder(es[..m], log[..n])) || InOrder(es, log[..n])
  }

  lemma InOrderAppend(es: seq<Event>, log: seq<Event>, e: Event)
    requires InOrder(es, log)
    ensures InOrder(es, log + [e])
    ensures InOrder(es + [e], log + [e])
  {
    assert (log + [e])[..|log|] == log;
    assert (es + [e])[..|es|] == es;
  }

  // ---------------------------------------------------------------------
  // The proposal protocol on the desk
  // ---------------------------------------------------------------------

  predicate IdBelow(id: nat, counter: Option<nat>) {
    counter.Some? && id < counter.value
  }

  /** Every channel and every held approval belongs to a proposal already
      numbered, and a held approval is not in the slot. */
  ghost predicate DeskInv(d: Desk) {
    && (forall id | id in d.channels :: IdBelow(id, d.nextId))
    && (forall id | id in d.held :: id in d.channels && d.slot != Some(id))
    && (d.slot.Some? ==> d.slot.value in d.channels)
  }

  lemma DeskInvDrops(d: Desk, id: nat)
    requires DeskInv(d)
    ensures DeskInv(DropTx(d, id)) && DeskInv(DropRx(d, id)) && DeskInv(ClearOn(d, id))
  {
  }

  lemma DeskInvHandler(d: Desk, id: nat)
    requires DeskInv(d)
    ensures d.slot == Some(id) ==> DeskInv(TakeOn(d, id))
    ensures DeskInv(d.(held := d.held - multiset{id}))
  {
  }

  lemma DeskInvSend(d: Desk, id: nat)
    requires DeskInv(d) && id in d.channels
    ensures DeskInv(SendOn(d, id))
  {
    DeskInvDrops(d, id);
    DeskInvHandler(DropTx(d, id), id);
  }

  lemma DeskInvInstall(d: Desk, now: nat)
    requires DeskInv(d) && d.slot.None?
    ensures DeskInv(InstallOn(d, NextId(d.nextId, now)))
  {
  }

  /** The processor is busy with its proposal `vars.id`. */
  predicate Active(pc: Pc) {
    pc.Sending? || pc.SendFailed? || pc.DroppingFailed? || pc.Awaiting? || pc.TimedOut? || pc.Clearing?
  }

  /** The processor still owns the receiver of its proposal. */
  predicate OwnsReceiver(pc: Pc) {
    Active(pc) && !pc.Clearing?
  }

  /** The slot is empty outside install..clear, and in between holds nothing but
      the active proposal, which is the newest one. */
  ghost predicate SlotInv(pc: Pc, id: nat, d: Desk) {
    && (d.slot.Some? ==> Active(pc) && !pc.DroppingFailed? && d.slot == Some(id))
    && (Active(pc) ==> id in d.channels && d.nextId == Some(id + 1))
    && (OwnsReceiver(pc) ==> id in d.channels && !d.channels[id].rxGone)
  }

  lemma SlotInvIdle(s: World, step: ProcStep)
    requires Running(s) && !Active(s.pc) && SlotInv(s.pc, s.vars.id, s.desk) && ProcEnabled(s, step)
    ensures var s' := ProcApply(s, step); SlotInv(s'.pc, s'.vars.id, s'.desk)
  {
  }

  lemma SlotInvSending(s: World, step: ProcStep)
    requires s.pc.Sending? || s.pc.SendFailed? || s.pc.DroppingFailed?
    requires SlotInv(s.pc, s.vars.id, s.desk) && ProcEnabled(s, step)
    ensures var s' := ProcApply(s, step); SlotInv(s'.pc, s'.vars.id, s'.desk)
  {
  }

  lemma SlotInvAwaiting(s: World, step: ProcStep)
    requires s.pc.Awaiting? || s.pc.TimedOut? || s.pc.Clearing?
    requires SlotInv(s.pc, s.vars.id, s.desk) && ProcEnabled(s, step)
    ensures var s' := ProcApply(s, step); SlotInv(s'.pc, s'.vars.id, s'.desk)
  {
  }

  lemma SlotInvProc(s: World, step: ProcStep)
    requires Running(s) && SlotInv(s.pc, s.vars.id, s.desk) && ProcEnabled(s, step)
    ensures var s' := ProcApply(s, step); SlotInv(s'.pc, s'.vars.id, s'.desk)
  {
    if !Active(s.pc) {
      SlotInvIdle(s, step);
    } else if s.pc.Awaiting? || s.pc.TimedOut? || s.pc.Clearing? {
      SlotInvAwaiting(s, step);
    } else {
      SlotInvSending(s, step);
    }
  }

  lemma SlotInvBot(s: World, step: BotStep)
    requires Running(s) && SlotInv(s.pc, s.vars.id, s.desk) && BotEnabled(s, step)
    ensures var s' := BotApply(s, step); SlotInv(s'.pc, s'.vars.id, s'.desk)
  {
  }

  /** What a processor step does to the desk. */
  function DeskAfter(d: Desk, id: nat, now: nat, step: ProcStep): Desk {
    match step
    case Install => InstallOn(d, NextId(d.nextId, now))
    case ClearFailed => ClearOn(d, id)
    case Clear => ClearOn(d, id)
    case DropFailed => DropRx(d, id)
    case DropReceiver => DropRx(d, id)
    case ReceiveClosed => DropRx(d, id)
    case Receive => DropRx(d, id)
    case _ => d
  }

  lemma DeskAfterStep(s: World, step: ProcStep)
    requires ProcEnabled(s, step)
    ensures ProcApply(s, step).desk == DeskAfter(s.desk, s.vars.id, s.now, step)
  {
  }

  lemma DeskInvAfter(d: Desk, id: nat, now: nat, step: ProcStep)
    requires DeskInv(d) && (step.Install? ==> d.slot.None?)
    ensures DeskInv(DeskAfter(d, id, now, step))
  {
    DeskInvDrops(d, id);
    if step.Install? {
      DeskInvInstall(d, now);
    }
  }

  lemma DeskInvProc(s: World, step: ProcStep)
    requires DeskInv(s.desk) && SlotInv(s.pc, s.vars.id, s.desk) && ProcEnabled(s, step)
    ensures DeskInv(ProcApply(s, step).desk)
  {
    DeskAfterStep(s, step);
    DeskInvAfter(s.desk, s.vars.id, s.now, step);
  }

  lemma DeskInvBot(s: World, step: BotStep)
    requires DeskInv(s.desk) && BotEnabled(s, step)
    ensures DeskInv(BotApply(s, step).desk)
  {
    match step
    case ApproveTake(id) => DeskInvHandler(s.desk, id);
    case ApproveSend(id) => DeskInvSend(s.desk, id);
    case ApproveAbort(id) =>
      DeskInvDrops(s.desk, id);
      DeskInvHandler(DropTx(s.desk, id), id);
    case _ =>
  }

  // ---------------------------------------------------------------------
  // The proposal protocol in the log
  // ---------------------------------------------------------------------

  /** The event hands the proposal an approval. */
  predicate Approves(e: Event, id: nat) {
    (e.Received? || e.Sent?) && e.id == id
  }

  /** Each id is taken at most once, and never after it left the slot for good;
      an expired proposal has no receiver, and no later event approves it. */
  ghost predicate LogInv(d: Desk, log: seq<Event>) {
    && (forall i | 0 <= i < |log| && log[i].Taken? :: IdBelow(log[i].id, d.nextId) && d.slot != Some(log[i].id))
    && (forall i | 0 <= i < |log| && log[i].Expired? :: log[i].id in d.channels && d.channels[log[i].id].rxGone)
    && TakenOnce(log) && ExpiredIsFinal(log)
  }

  ghost predicate TakenOnce(log: seq<Event>) {
    forall i, j | 0 <= i < j < |log| && log[i].Taken? :: log[j] != log[i]
  }

  ghost predicate ExpiredIsFinal(log: seq<Event>) {
    forall i, j | 0 <= i < j < |log| && log[i].Expired? :: !Approves(log[j], log[i].id)
  }

  /** How one step may change the desk, as far as the log is concerned. */
  ghost predicate Moves(d: Desk, d': Desk) {
    && (forall id | id in d.channels :: id in d'.channels && (d.channels[id].rxGone ==> d'.channels[id].rxGone))
    && (d.nextId.Some? ==> d'.nextId.Some? && d.nextId.value <= d'.nextId.value)
    && (d'.slot == d.slot || d'.slot.None? || !IdBelow(d'.slot.value, d.nextId))
  }

  lemma LogInvMoves(d: Desk, d': Desk, log: seq<Event>)
    requires LogInv(d, log) && Moves(d, d')
    ensures LogInv(d', log)
  {
  }

  lemma LogInvEvent(d: Desk, log: seq<Event>, e: Event)
    requires LogInv(d, log)
    requires e.Taken? ==> IdBelow(e.id, d.nextId) && d.slot != Some(e.id) && e !in log
    requires e.Expired? ==> e.id in d.channels && d.channels[e.id].rxGone
    requires (e.Received? || e.Sent?) ==> Expired(e.id) !in log
    ensures LogInv(d, log + [e])
  {
  }

  lemma NotExpired(d: Desk, log: seq<Event>, id: nat)
    requires LogInv(d, log) && id in d.channels && !d.channels[id].rxGone
    ensures Expired(id) !in log
  {
  }

  lemma NotTaken(d: Desk, log: seq<Event>, id: nat)
    requires LogInv(d, log) && d.slot == Some(id)
    ensures Taken(id) !in log
  {
  }

  lemma MovesOps(d: Desk, id: nat)
    ensures Moves(d, DropTx(d, id)) && Moves(d, DropRx(d, id)) && Moves(d, ClearOn(d, id)) && Moves(d, TakeOn(d, id))
    ensures id in d.channels ==> Moves(d, SendOn(d, id))
    ensures Moves(d, d.(held := d.held - multiset{id}))
    ensures Moves(d, DropTx(d, id).(held := d.held - multiset{id}))
  {
  }

  lemma MovesInstall(d: Desk, now: nat)
    requires DeskInv(d) && d.slot.None?
    ensures Moves(d, InstallOn(d, NextId(d.nextId, now)))
  {
  }

  lemma MovesAfter(d: Desk, id: nat, now: nat, step: ProcStep)
    requires DeskInv(d) && (step.Install? ==> d.slot.None?)
    ensures Moves(d, DeskAfter(d, id, now, step))
  {
    if step.Install? {
      MovesInstall(d, now);
    } else {
      MovesOps(d, id);
    }
  }

  /** Steps of the processor by what they do to desk and log. */
  predicate DropsReceiver(step: ProcStep) {
    step.DropFailed? || step.ReceiveClosed? || step.DropReceiver? || step.Receive?
  }

  predicate ClearsSlot(step: ProcStep) {
    step.ClearFailed? || step.Clear?
  }

  lemma LogInvInstall(s: World)
    requires DeskInv(s.desk) && s.desk.slot.None? && LogInv(s.desk, s.hist.log) && ProcEnabled(s, Install)
    ensures var s' := ProcApply(s, Install); LogInv(s'.desk, s'.hist.log)
  {
    var d, log := s.desk, s.hist.log;
    var id := NextId(d.nextId, s.now);
    MovesInstall(d, s.now);
    LogInvMoves(d, InstallOn(d, id), log);
    LogInvEvent(InstallOn(d, id), log, Installed(s.hist.n, id));
  }

  lemma LogInvDrop(s: World, step: ProcStep)
    requires SlotInv(s.pc, s.vars.id, s.desk) && LogInv(s.desk, s.hist.log) && ProcEnabled(s, step) && DropsReceiver(step)
    ensures var s' := ProcApply(s, step); LogInv(s'.desk, s'.hist.log)
  {
    var d, log, id := s.desk, s.hist.log, s.vars.id;
    LogInvGiveUp(d, log, id);
    if step.Receive? {
      NotExpired(d, log, id);
      MovesOps(d, id);
      LogInvMoves(d, DropRx(d, id), log);
      LogInvEvent(DropRx(d, id), log, Received(s.hist.n, id));
    }
  }

  lemma LogInvClear(s: World, step: ProcStep)
    requires LogInv(s.desk, s.hist.log) && ProcEnabled(s, step) && ClearsSlot(step)
    ensures var s' := ProcApply(s, step); LogInv(s'.desk, s'.hist.log)
  {
    MovesOps(s.desk, s.vars.id);
    LogInvMoves(s.desk, ClearOn(s.desk, s.vars.id), s.hist.log);
  }

  /** All other steps leave the desk alone and log nothing about proposals. */
  lemma OtherSteps(s: World, step: ProcStep)
    requires ProcEnabled(s, step) && !step.Install? && !DropsReceiver(step) && !ClearsSlot(step)
    ensures var s' := ProcApply(s, step);
            && s'.desk == s.desk
            && (s'.hist.log == s.hist.log
                || exists e: Event :: s'.hist.log == s.hist.log + [e] && !AboutProposal(e))
  {
  }

  predicate AboutProposal(e: Event) {
    e.Taken? || e.Sent? || e.Received? || e.Expired?
  }

  lemma LogInvProc(s: World, step: ProcStep)
    requires Running(s) && DeskInv(s.desk) && SlotInv(s.pc, s.vars.id, s.desk) && LogInv(s.desk, s.hist.log)
    requires ProcEnabled(s, step)
    ensures var s' := ProcApply(s, step); LogInv(s'.desk, s'.hist.log)
  {
    if step.Install? {
      LogInvInstall(s);
    } else if DropsReceiver(step) {
      LogInvDrop(s, step);
    } else if ClearsSlot(step) {
      LogInvClear(s, step);
    } else {
      LogInvOther(s, step);
    }
  }

  lemma LogInvOther(s: World, step: ProcStep)
    requires LogInv(s.desk, s.hist.log)
    requires ProcEnabled(s, step) && !step.Install? && !DropsReceiver(step) && !ClearsSlot(step)
    ensures var s' := ProcApply(s, step); LogInv(s'.desk, s'.hist.log)
  {
    OtherSteps(s, step);
    var log' := ProcApply(s, step).hist.log;
    if log' != s.hist.log {
      var e :| log' == s.hist.log + [e] && !AboutProposal(e);
      LogInvEvent(s.desk, s.hist.log, e);
    }
  }

  lemma LogInvGiveUp(d: Desk, log: seq<Event>, id: nat)
    requires LogInv(d, log) && id in d.channels
    ensures LogInv(DropRx(d, id), log + [Expired(id)])
  {
    MovesOps(d, id);
    LogInvMoves(d, DropRx(d, id), log);
    LogInvEvent(DropRx(d, id), log, Expired(id));
  }

  lemma LogInvBot(s: World, step: BotStep)
    requires DeskInv(s.desk) && LogInv(s.desk, s.hist.log) && BotEnabled(s, step)
    ensures var s' := BotApply(s, step); LogInv(s'.desk, s'.hist.log)
  {
    var s' := BotApply(s, step);
    match step
    case ApproveTake(id) =>
      MovesOps(s.desk, id);
      LogInvMoves(s.desk, s'.desk, s.hist.log);
      if s.desk.slot == Some(id) {
        NotTaken(s.desk, s.hist.log, id);
        LogInvEvent(s'.desk, s.hist.log, Taken(id));
      }
    case ApproveSend(id) =>
      MovesOps(s.desk, id);
      LogInvMoves(s.desk, s'.desk, s.hist.log);
      if !s.desk.channels[id].rxGone {
        NotExpired(s.desk, s.hist.log, id);
        LogInvEvent(s'.desk, s.hist.log, Sent(id));
      }
    case ApproveAbort(id) =>
      MovesOps(s.desk, id);
      LogInvMoves(s.desk, s'.desk, s.hist.log);
    case _ =>
  }

  // ---------------------------------------------------------------------
  // What a tick relies on
  // ---------------------------------------------------------------------

  /** The actions that let the tick continue. */
  predicate PassesHalt(action: RiskAction) {
    !action.HaltAll? && !action.PauseRebalancing?
  }

  /** Inside the risk and operator gates, which need a database. */
  predicate InGates(pc: Pc) {
    pc.ReadingBefore? || pc.Evaluating? || pc.Cloning? || pc.Persisting? || pc.HaltGate? || pc.OperatorGate?
  }

  predicate BeyondGates(pc: Pc) {
    pc.Deciding? || BeyondDecision(pc)
  }

  predicate BeyondDecision(pc: Pc) {
    pc.Installing? || pc.Submitting? || Active(pc)
  }

  function GateEvents(s: World): seq<Event> {
    if s.cfg.hasDb then [Evaluated(s.hist.n, s.vars.action), GateRead(s.hist.n, false)] else []
  }

  function DecisionEvents(s: World): seq<Event> {
    GateEvents(s) + [Decided(s.hist.n, DecisionOn(s.vars.update))]
  }

  function InstallEvents(s: World): seq<Event> {
    DecisionEvents(s) + [Installed(s.hist.n, s.vars.id)]
  }

  function ApprovalEvents(s: World): seq<Event> {
    InstallEvents(s) + [Taken(s.vars.id), Sent(s.vars.id), Received(s.hist.n, s.vars.id)]
  }

  /** The trail of the tick in progress, read off where the processor is. */
  function ExpectedTrail(s: World): seq<Event> {
    if s.pc.ReadingBefore? || s.pc.Evaluating? then []
    else if InGates(s.pc) then [Evaluated(s.hist.n, s.vars.action)]
    else if s.pc.Deciding? then GateEvents(s)
    else if s.pc.Installing? then DecisionEvents(s)
    else if s.pc.Submitting? then (if s.cfg.telegram then ApprovalEvents(s) else DecisionEvents(s))
    else if s.pc.Clearing? && s.vars.approved then ApprovalEvents(s)
    else if Active(s.pc) then InstallEvents(s)
    else s.hist.trail
  }

  /** Every stage was reached only through the ones before it. */
  ghost predicate StageInv(s: World) {
    && s.hist.trail == ExpectedTrail(s)
    && (InGates(s.pc) ==> s.cfg.hasDb)
    && (s.pc.OperatorGate? || BeyondGates(s.pc) ==> s.cfg.hasDb ==> PassesHalt(s.vars.action))
    && (BeyondDecision(s.pc) ==> DecisionOn(s.vars.update).Rebalance?)
    && (s.pc.Installing? || Active(s.pc) ==> s.cfg.telegram)
  }

  lemma StageInvTickArrives(s: World, u: PoolUpdate)
    requires StageInv(s) && ProcEnabled(s, TickArrives(u))
    ensures StageInv(ProcApply(s, TickArrives(u)))
  {
  }

  lemma StageInvEvaluate(s: World)
    requires StageInv(s) && ProcEnabled(s, Evaluate)
    ensures StageInv(ProcApply(s, Evaluate))
  {
  }

  lemma StageInvClone(s: World)
    requires StageInv(s) && ProcEnabled(s, Clone)
    ensures StageInv(ProcApply(s, Clone))
  {
  }

  lemma StageInvPassHaltGate(s: World)
    requires StageInv(s) && ProcEnabled(s, PassHaltGate)
    ensures StageInv(ProcApply(s, PassHaltGate))
  {
  }

  lemma StageInvPassOperatorGate(s: World)
    requires StageInv(s) && ProcEnabled(s, PassOperatorGate)
    ensures StageInv(ProcApply(s, PassOperatorGate))
  {
  }

  lemma StageInvDecide(s: World)
    requires StageInv(s) && ProcEnabled(s, Decide)
    ensures StageInv(ProcApply(s, Decide))
  {
  }

  lemma StageInvInstall(s: World)
    requires StageInv(s) && ProcEnabled(s, Install)
    ensures StageInv(ProcApply(s, Install))
  {
  }

  lemma StageInvReceive(s: World)
    requires StageInv(s) && ProcEnabled(s, Receive)
    ensures StageInv(ProcApply(s, Receive))
  {
  }

  lemma StageInvClear(s: World)
    requires StageInv(s) && ProcEnabled(s, Clear)
    ensures StageInv(ProcApply(s, Clear))
  {
  }

  /** The steps that neither note an event nor choose between stages. */
  predicate PlainStep(step: ProcStep) {
    || step.ReadBefore? || step.Persist? || step.Send? || step.ClearFailed? || step.DropFailed? || step.ReceiveClosed?
    || step.Timeout? || step.DropReceiver? || step.Submit?
  }

  lemma PlainStepKeeps(s: World, step: ProcStep)
    requires ProcEnabled(s, step) && PlainStep(step)
    ensures var t := ProcApply(s, step);
            && t.cfg == s.cfg && t.hist.n == s.hist.n && t.hist.trail == s.hist.trail
            && t.vars.update == s.vars.update && t.vars.action == s.vars.action && t.vars.id == s.vars.id
            && (step.ReadBefore? ==> t.pc.Evaluating?) && (step.Persist? ==> t.pc.HaltGate?)
            && (Active(t.pc) <==> Active(s.pc) && !step.DropFailed?) && (t.pc.Clearing? ==> !t.vars.approved)
            && (Active(t.pc) || step.ReadBefore? || step.Persist? || t.pc.Idle?)
  {
  }

  lemma StageInvPlain(s: World, step: ProcStep)
    requires StageInv(s) && ProcEnabled(s, step) && PlainStep(step)
    ensures StageInv(ProcApply(s, step))
  {
    PlainStepKeeps(s, step);
  }

  lemma StageInvProc(s: World, step: ProcStep)
    requires StageInv(s) && ProcEnabled(s, step) && Running(s)
    ensures StageInv(ProcApply(s, step))
  {
    match step
    case TickArrives(u) => StageInvTickArrives(s, u);
    case Evaluate => StageInvEvaluate(s);
    case Clone => StageInvClone(s);
    case PassHaltGate => StageInvPassHaltGate(s);
    case PassOperatorGate => StageInvPassOperatorGate(s);
    case Decide => StageInvDecide(s);
    case Install => StageInvInstall(s);
    case Receive => StageInvReceive(s);
    case Clear => StageInvClear(s);
    case _ => StageInvPlain(s, step);
  }

  /** Handlers leave the tick in progress alone. */
  lemma HandlersKeepTick(s: World, step: BotStep)
    requires BotEnabled(s, step)
    ensures var t := BotApply(s, step);
            && t.pc == s.pc && t.vars == s.vars && t.cfg == s.cfg && t.now == s.now
            && t.hist == s.hist.(log := t.hist.log)
  {
  }

  lemma StageInvBot(s: World, step: BotStep)
    requires StageInv(s) && BotEnabled(s, step)
    ensures StageInv(BotApply(s, step))
  {
    HandlersKeepTick(s, step);
  }

  // ---------------------------------------------------------------------
  // The trail is in the log
  // ---------------------------------------------------------------------

  /** The trail `t` happened in its order; if the active proposal `id` is held by a
      handler it was taken since, and if it was answered that was sent after. */
  predicate Ordered(t: seq<Event>, log: seq<Event>, id: nat, held: bool, answered: bool) {
    && InOrder(t, log)
    && (held ==> InOrder(t + [Taken(id)], log))
    && (answered ==> InOrder(t + [Taken(id)] + [Sent(id)], log))
  }

  /** Held or answered matter while the receiver is there; an answer is true. */
  ghost predicate OrderInv(s: World) {
    var owns := OwnsReceiver(s.pc);
    && Ordered(s.hist.trail, s.hist.log, s.vars.id, owns && s.vars.id in s.desk.held, owns && Waiting(s).value.Some?)
    && (owns && Waiting(s).value.Some? ==> Waiting(s).value == Some(true))
  }

  lemma NoteInOrder(h: History, e: Event)
    requires InOrder(h.trail, h.log)
    ensures InOrder(Note(h, e).trail, Note(h, e).log) && InOrder(Log(h, e).trail, Log(h, e).log)
  {
    InOrderAppend(h.trail, h.log, e);
  }

  lemma OrderInvInstall(s: World)
    requires DeskInv(s.desk) && s.desk.slot.None? && OrderInv(s) && ProcEnabled(s, Install)
    ensures OrderInv(ProcApply(s, Install))
  {
    var id := NextId(s.desk.nextId, s.now);
    NoteInOrder(s.hist, Installed(s.hist.n, id));
    FreshChannel(s.desk, id);
  }

  /** A fresh proposal is neither held nor answered. */
  lemma FreshChannel(d: Desk, id: nat)
    requires DeskInv(d) && d.slot.None? && (d.nextId.Some? ==> id == d.nextId.value)
    ensures var d' := InstallOn(d, id); id !in d'.held && d'.channels[id].value.None?
  {
  }

  lemma OrderInvReceive(s: World)
    requires OrderInv(s) && ProcEnabled(s, Receive)
    ensures OrderInv(ProcApply(s, Receive))
  {
    var id, t, e := s.vars.id, s.hist.trail, Received(s.hist.n, s.vars.id);
    InOrderAppend(t + [Taken(id)] + [Sent(id)], s.hist.log, e);
    assert t + [Taken(id)] + [Sent(id)] + [e] == t + [Taken(id), Sent(id), e];
  }

  lemma OrderInvDrop(s: World, step: ProcStep)
    requires OrderInv(s) && ProcEnabled(s, step) && DropsReceiver(step) && !step.Receive?
    ensures OrderInv(ProcApply(s, step))
  {
    NoteInOrder(s.hist, Expired(s.vars.id));
  }

  predicate MakesNote(step: ProcStep) {
    step.Evaluate? || step.PassOperatorGate? || step.Decide? || step.Submit?
  }

  lemma NoteIsOneEvent(s: World, step: ProcStep)
    requires ProcEnabled(s, step) && MakesNote(step)
    ensures var s' := ProcApply(s, step);
            && !OwnsReceiver(s'.pc)
            && ((s'.hist.log == s.hist.log && s'.hist.trail == s.hist.trail)
                || exists e: Event :: s'.hist.log == s.hist.log + [e] && s'.hist.trail <= s.hist.trail + [e] && |s'.hist.trail| >= |s.hist.trail|)
  {
  }

  lemma OrderInvNote(s: World, step: ProcStep)
    requires OrderInv(s) && ProcEnabled(s, step) && MakesNote(step)
    ensures OrderInv(ProcApply(s, step))
  {
    NoteIsOneEvent(s, step);
    var s' := ProcApply(s, step);
    if s'.hist.log != s.hist.log {
      var e: Event :| s'.hist.log == s.hist.log + [e] && s'.hist.trail <= s.hist.trail + [e] && |s'.hist.trail| >= |s.hist.trail|;
      InOrderAppend(s.hist.trail, s.hist.log, e);
      assert s'.hist.trail == s.hist.trail || s'.hist.trail == s.hist.trail + [e];
    }
  }

  lemma OrderInvSilent(s: World, step: ProcStep)
    requires OrderInv(s) && ProcEnabled(s, step) && Running(s)
    requires !step.Install? && !DropsReceiver(step) && !MakesNote(step)
    ensures OrderInv(ProcApply(s, step))
  {
  }

  lemma OrderInvProc(s: World, step: ProcStep)
    requires DeskInv(s.desk) && SlotInv(s.pc, s.vars.id, s.desk) && OrderInv(s) && ProcEnabled(s, step) && Running(s)
    ensures OrderInv(ProcApply(s, step))
  {
    if step.Install? {
      OrderInvInstall(s);
    } else if step.Receive? {
      OrderInvReceive(s);
    } else if DropsReceiver(step) {
      OrderInvDrop(s, step);
    } else if MakesNote(step) {
      OrderInvNote(s, step);
    } else {
      OrderInvSilent(s, step);
    }
  }

  lemma OrderedLater(t: seq<Event>, log: seq<Event>, id: nat, held: bool, answered: bool, e: Event)
    requires Ordered(t, log, id, held, answered)
    ensures Ordered(t, log + [e], id, held, answered)
  {
    InOrderAppend(t, log, e);
    if held {
      InOrderAppend(t + [Taken(id)], log, e);
    }
    if answered {
      InOrderAppend(t + [Taken(id)] + [Sent(id)], log, e);
    }
  }

  lemma OrderedTaken(t: seq<Event>, log: seq<Event>, id: nat, held: bool, answered: bool)
    requires Ordered(t, log, id, held, answered)
    ensures Ordered(t, log + [Taken(id)], id, true, answered)
  {
    OrderedLater(t, log, id, held, answered, Taken(id));
    InOrderAppend(t, log, Taken(id));
  }

  lemma OrderedSent(t: seq<Event>, log: seq<Event>, id: nat, answered: bool)
    requires Ordered(t, log, id, true, answered)
    ensures Ordered(t, log + [Sent(id)], id, true, true)
  {
    OrderedLater(t, log, id, true, answered, Sent(id));
    InOrderAppend(t + [Taken(id)], log, Sent(id));
  }

  lemma OrderedLess(t: seq<Event>, log: seq<Event>, id: nat, held: bool, answered: bool, held': bool, answered': bool)
    requires Ordered(t, log, id, held, answered) && (held' ==> held) && (answered' ==> answered)
    ensures Ordered(t, log, id, held', answered')
  {
  }

  lemma OrderInvTake(s: World, id: nat)
    requires OrderInv(s) && BotEnabled(s, ApproveTake(id))
    ensures OrderInv(BotApply(s, ApproveTake(id)))
  {
    if s.desk.slot == Some(id) {
      var owns := OwnsReceiver(s.pc);
      var held, answered := owns && s.vars.id in s.desk.held, owns && Waiting(s).value.Some?;
      if id == s.vars.id {
        OrderedTaken(s.hist.trail, s.hist.log, id, held, answered);
        OrderedLess(s.hist.trail, s.hist.log + [Taken(id)], id, true, answered, owns, answered);
      } else {
        OrderedLater(s.hist.trail, s.hist.log, s.vars.id, held, answered, Taken(id));
      }
    }
  }

  lemma OrderInvSend(s: World, id: nat)
    requires OrderInv(s) && BotEnabled(s, ApproveSend(id))
    ensures OrderInv(BotApply(s, ApproveSend(id)))
  {
    var owns := OwnsReceiver(s.pc);
    var t, log := s.hist.trail, s.hist.log;
    var held, answered := owns && s.vars.id in s.desk.held, owns && Waiting(s).value.Some?;
    var u := BotApply(s, ApproveSend(id));
    var held', answered' := owns && s.vars.id in u.desk.held, owns && Waiting(u).value.Some?;
    if s.desk.channels[id].rxGone {
      OrderedLess(t, log, s.vars.id, held, answered, held', answered');
    } else if owns && id == s.vars.id {
      OrderedSent(t, log, id, answered);
      OrderedLess(t, log + [Sent(id)], id, true, true, held', answered');
    } else {
      OrderedLater(t, log, s.vars.id, held, answered, Sent(id));
      OrderedLess(t, log + [Sent(id)], s.vars.id, held, answered, held', answered');
    }
  }

  lemma OrderInvBot(s: World, step: BotStep)
    requires OrderInv(s) && BotEnabled(s, step)
    ensures OrderInv(BotApply(s, step))
  {
    match step
    case ApproveTake(id) => OrderInvTake(s, id);
    case ApproveSend(id) => OrderInvSend(s, id);
    case _ =>
  }

  // ---------------------------------------------------------------------
  // The halt latch
  // ---------------------------------------------------------------------

  /** A halted row means halted memory from session start on; the copy about to
      be written is as halted as memory; and past the halt gate memory is not
      halted. */
  ghost predicate HaltInv(s: World) {
    && StartAllowed(s.cfg)
    && (s.pc.Resetting? ==> s.row.Some? && s.vars.copy.haltFlag == s.row.value.haltFlag)
    && (Running(s) && s.cfg.hasDb ==>
          && s.row.Some?
          && (s.row.value.haltFlag ==> s.mem.haltFlag)
          && (s.pc.Persisting? ==> s.vars.copy.haltFlag == s.mem.haltFlag)
          && (s.pc.Cloning? || s.pc.Persisting? || s.pc.HaltGate? ==> (s.vars.action.HaltAll? <==> s.mem.haltFlag))
          && (s.pc.OperatorGate? || BeyondGates(s.pc) ==> !s.mem.haltFlag))
  }

  lemma HaltInvEvaluate(s: World)
    requires HaltInv(s) && s.cfg.hasDb && ProcEnabled(s, Evaluate)
    ensures HaltInv(ProcApply(s, Evaluate))
  {
    StepContract(s.cfg.limits, s.mem, SnapshotOf(s.vars.update), s.vars.update.driftMargin);
  }

  lemma HaltInvLoad(s: World, ok: bool)
    requires HaltInv(s) && ProcEnabled(s, Load(ok))
    ensures HaltInv(ProcApply(s, Load(ok)))
  {
  }

  lemma HaltInvReset(s: World, ok: bool)
    requires HaltInv(s) && ProcEnabled(s, Reset(ok))
    ensures HaltInv(ProcApply(s, Reset(ok)))
  {
  }

  lemma HaltInvClone(s: World)
    requires HaltInv(s) && s.cfg.hasDb && ProcEnabled(s, Clone)
    ensures HaltInv(ProcApply(s, Clone))
  {
  }

  lemma HaltInvPersist(s: World, landed: bool)
    requires HaltInv(s) && s.cfg.hasDb && ProcEnabled(s, Persist(landed))
    ensures HaltInv(ProcApply(s, Persist(landed)))
  {
  }

  lemma HaltInvPassHaltGate(s: World)
    requires HaltInv(s) && s.cfg.hasDb && ProcEnabled(s, PassHaltGate)
    ensures HaltInv(ProcApply(s, PassHaltGate))
  {
  }

  /** The steps that change or check a risk state. */
  predicate HandlesRisk(step: ProcStep) {
    || step.Load? || step.Reset? || step.Evaluate? || step.Clone? || step.Persist? || step.PassHaltGate?
  }

  /** The other steps change no risk state and do not skip the halt gate. */
  lemma OthersKeepRisk(s: World, step: ProcStep)
    requires ProcEnabled(s, step) && !HandlesRisk(step)
    ensures var t := ProcApply(s, step);
            && t.row == s.row && t.mem == s.mem && t.cfg == s.cfg && (Running(s) ==> Running(t)) && Running(s)
            && !t.pc.Cloning? && !t.pc.Persisting? && !t.pc.HaltGate? && !t.pc.OperatorGate?
            && (BeyondGates(t.pc) ==> !s.cfg.hasDb || s.pc.OperatorGate? || BeyondGates(s.pc))
  {
  }

  lemma HaltInvOther(s: World, step: ProcStep)
    requires HaltInv(s) && ProcEnabled(s, step) && !HandlesRisk(step)
    ensures HaltInv(ProcApply(s, step))
  {
    OthersKeepRisk(s, step);
  }

  lemma HaltInvProc(s: World, step: ProcStep)
    requires HaltInv(s) && (InGates(s.pc) ==> s.cfg.hasDb) && ProcEnabled(s, step)
    ensures HaltInv(ProcApply(s, step))
  {
    match step
    case Load(ok) => HaltInvLoad(s, ok);
    case Reset(ok) => HaltInvReset(s, ok);
    case Evaluate => HaltInvEvaluate(s);
    case Clone => HaltInvClone(s);
    case Persist(landed) => HaltInvPersist(s, landed);
    case PassHaltGate => HaltInvPassHaltGate(s);
    case _ => HaltInvOther(s, step);
  }

  lemma HaltInvBot(s: World, step: BotStep)
    requires HaltInv(s) && BotEnabled(s, step)
    ensures HaltInv(BotApply(s, step))
  {
  }

  // ---------------------------------------------------------------------
  // Proposal ids across processes
  // ---------------------------------------------------------------------

  /** The last run's numbers end at the counter, and no seed is in the future. */
  ghost predicate RunsInv(s: World) {
    && Chronological(s.hist.runs)
    && (forall i | 0 <= i < |s.hist.runs| :: s.hist.runs[i].seed <= (if s.now >= 1 then s.now else 1))
    && (Running(s) && s.desk.nextId.Some? ==>
          && s.hist.runs != []
          && var last := s.hist.runs[|s.hist.runs| - 1]; s.desk.nextId.value == last.seed + last.count)
  }

  lemma RunsInvInstall(s: World)
    requires RunsInv(s) && ProcEnabled(s, Install)
    ensures RunsInv(ProcApply(s, Install))
  {
  }

  lemma RunsInvKept(s: World, s': World)
    requires RunsInv(s) && s'.hist.runs == s.hist.runs && s'.now >= s.now
    requires Running(s') && s'.desk.nextId.Some? ==> Running(s) && s'.desk.nextId == s.desk.nextId
    ensures RunsInv(s')
  {
  }

  lemma CounterOnlyInstalls(s: World, step: ProcStep)
    requires ProcEnabled(s, step) && !step.Install?
    ensures var s' := ProcApply(s, step);
            && s'.desk.nextId == s.desk.nextId && s'.hist.runs == s.hist.runs && s'.now == s.now
            && (Running(s') && !Running(s) ==> step.Load? || step.Reset?)
  {
  }

  // ---------------------------------------------------------------------
  // All together
  // ---------------------------------------------------------------------

  /** A starting process has an empty desk. */
  ghost predicate StartInv(s: World) {
    && (s.pc.Loading? || s.pc.Resetting? ==> s.desk == EMPTY_DESK && s.hist.log == [] && s.hist.trail == [])
    && (s.pc.Resetting? ==> s.cfg.hasDb)
  }

  ghost predicate Inv(s: World) {
    && RunsInv(s) && StartInv(s) && (!s.pc.Down? ==> HaltInv(s))
    && (Running(s) ==> RunningInv(s))
  }

  /** What holds while a process runs. */
  ghost predicate RunningInv(s: World) {
    && DeskInv(s.desk) && SlotInv(s.pc, s.vars.id, s.desk) && LogInv(s.desk, s.hist.log)
    && StageInv(s) && OrderInv(s)
  }

  lemma RunningInvProc(s: World, step: ProcStep)
    requires Running(s) && RunningInv(s) && ProcEnabled(s, step)
    ensures RunningInv(ProcApply(s, step))
  {
    DeskInvProc(s, step);
    SlotInvProc(s, step);
    LogInvProc(s, step);
    StageInvProc(s, step);
    OrderInvProc(s, step);
  }

  lemma RunsInvProc(s: World, step: ProcStep)
    requires RunsInv(s) && StartInv(s) && ProcEnabled(s, step)
    ensures RunsInv(ProcApply(s, step))
  {
    if step.Install? {
      RunsInvInstall(s);
    } else {
      CounterOnlyInstalls(s, step);
      RunsInvKept(s, ProcApply(s, step));
    }
  }

  lemma StaysUp(s: World, step: ProcStep)
    requires Running(s) && ProcEnabled(s, step)
    ensures Running(ProcApply(s, step))
  {
  }

  lemma InvProc(s: World, step: ProcStep)
    requires Inv(s) && ProcEnabled(s, step)
    ensures Inv(ProcApply(s, step))
  {
    RunsInvProc(s, step);
    if Running(s) {
      StaysUp(s, step);
      HaltInvProc(s, step);
      RunningInvProc(s, step);
    } else {
      StartInvProc(s, step);
    }
  }

  /** An empty desk and an empty log satisfy everything. */
  lemma FreshRunningInv(s: World)
    requires s.pc.Idle? && s.desk == EMPTY_DESK && s.hist.log == [] && s.hist.trail == []
    ensures RunningInv(s)
  {
  }

  lemma StartSteps(s: World, step: ProcStep)
    requires StartInv(s) && !Running(s) && !s.pc.Down? && ProcEnabled(s, step)
    ensures var t := ProcApply(s, step);
            && (t.pc.Down? || t.pc.Resetting? || t.pc.Idle?) && (t.pc.Resetting? ==> t.cfg.hasDb)
            && t.desk == EMPTY_DESK && t.hist.log == [] && t.hist.trail == []
  {
  }

  lemma StartInvProc(s: World, step: ProcStep)
    requires StartInv(s) && HaltInv(s) && !Running(s) && !s.pc.Down? && ProcEnabled(s, step)
    ensures var t := ProcApply(s, step);
            StartInv(t) && (!t.pc.Down? ==> HaltInv(t)) && (Running(t) ==> RunningInv(t))
  {
    StartSteps(s, step);
    HaltInvProc(s, step);
    var t := ProcApply(s, step);
    if Running(t) {
      FreshRunningInv(t);
    }
  }

  lemma RunningInvBot(s: World, step: BotStep)
    requires RunningInv(s) && BotEnabled(s, step)
    ensures RunningInv(BotApply(s, step))
  {
    DeskInvBot(s, step);
    SlotInvBot(s, step);
    LogInvBot(s, step);
    StageInvBot(s, step);
    OrderInvBot(s, step);
  }

  lemma RunsInvBot(s: World, step: BotStep)
    requires RunsInv(s) && BotEnabled(s, step)
    ensures RunsInv(BotApply(s, step))
  {
    HandlersKeepTick(s, step);
    HandlersKeepCounter(s, step);
    RunsInvKept(s, BotApply(s, step));
  }

  lemma HandlersKeepCounter(s: World, step: BotStep)
    requires BotEnabled(s, step)
    ensures BotApply(s, step).desk.nextId == s.desk.nextId
  {
  }

  lemma InvBot(s: World, step: BotStep)
    requires Inv(s) && BotEnabled(s, step)
    ensures Inv(BotApply(s, step))
  {
    HandlersKeepTick(s, step);
    HaltInvBot(s, step);
    RunningInvBot(s, step);
    RunsInvBot(s, step);
  }

  lemma InvLaunch(s: World, cfg: Config)
    requires Inv(s) && EnvEnabled(s, Launch(cfg))
    ensures Inv(EnvApply(s, Launch(cfg)))
  {
    RunsInvKept(s, EnvApply(s, Launch(cfg)));
  }

  lemma InvClock(s: World)
    requires Inv(s)
    ensures Inv(EnvApply(s, ClockAdvances))
  {
    RunsInvKept(s, EnvApply(s, ClockAdvances));
  }

  lemma InvEnv(s: World, step: EnvStep)
    requires Inv(s) && EnvEnabled(s, step)
    ensures Inv(EnvApply(s, step))
  {
    match step
    case Launch(cfg) => InvLaunch(s, cfg);
    case ClockAdvances => InvClock(s);
    case _ => RunsInvKept(s, EnvApply(s, step));
  }

  lemma InvStep(s: World, step: WorldStep)
    requires Inv(s) && Enabled(s, step)
    ensures Inv(Apply(s, step))
  {
    match step
    case Proc(p) => InvProc(s, p);
    case Bot(b) => InvBot(s, b);
    case Env(e) => InvEnv(s, e);
  }

  lemma {:induction false} InvRun(s: World, steps: seq<WorldStep>)
    requires Inv(s) && Possible(s, steps)
    ensures Inv(Final(s, steps))
    decreases |steps|
  {
    if steps != [] {
      InvStep(s, steps[0]);
      InvRun(Apply(s, steps[0]), steps[1..]);
    }
  }

  lemma ReachableInv(s: World)
    requires Reachable(s)
    ensures Inv(s)
  {
    var init, steps :| Init(init) && Possible(init, steps) && Final(init, steps) == s;
    InvRun(init, steps);
  }

  // ---------------------------------------------------------------------
  // Main results
  // ---------------------------------------------------------------------

  /** The events a submission relies on, in their order. */
  function SubmissionEvents(s: World): seq<Event> {
    [Evaluated(s.hist.n, s.vars.action), GateRead(s.hist.n, false), Decided(s.hist.n, DecisionOn(s.vars.update))]
    + (if s.cfg.telegram
       then [Installed(s.hist.n, s.vars.id), Taken(s.vars.id), Sent(s.vars.id), Received(s.hist.n, s.vars.id)]
       else [])
  }

  lemma SubmittingTrail(s: World)
    requires StageInv(s) && s.pc.Submitting? && s.cfg.hasDb
    ensures s.hist.trail == SubmissionEvents(s)
  {
    assert GateEvents(s) + [Decided(s.hist.n, DecisionOn(s.vars.update))]
        == [Evaluated(s.hist.n, s.vars.action), GateRead(s.hist.n, false), Decided(s.hist.n, DecisionOn(s.vars.update))];
  }

  /** The approval protocol. The slot is non-empty only between install and
      clear of exactly the active proposal, the newest one, so clearing never
      removes another; no id is taken twice; and after a timeout, a failed send
      or any other loss of the receiver no event approves that id again, even if
      a handler already holds its sender. */
  lemma ApprovalProtocol(s: World)
    requires Reachable(s) && Running(s)
    ensures s.desk.slot.Some? ==> Active(s.pc) && s.desk.slot == Some(s.vars.id) && s.desk.nextId == Some(s.vars.id + 1)
    ensures s.pc.Idle? || s.pc.Installing? || s.pc.Submitting? ==> s.desk.slot.None?
    ensures TakenOnce(s.hist.log) && ExpiredIsFinal(s.hist.log)
    ensures forall id: nat | Expired(id) in s.hist.log :: id in s.desk.channels && s.desk.channels[id].rxGone
  {
    ReachableInv(s);
  }

  /** Proposal ids are distinct across all processes exactly when no process
      outran the clock. */
  lemma IdsAcrossRestarts(s: World)
    requires Reachable(s)
    ensures DistinctAcrossRuns(s.hist.runs) <==> OnePerSecond(s.hist.runs)
  {
    ReachableInv(s);
    DistinctIffOnePerSecond(s.hist.runs);
  }

  predicate RowHalted(s: World) {
    s.row.Some? && s.row.value.haltFlag
  }

  /** Only a halted state can be written over a halted row. */
  lemma HaltedRowProc(s: World, step: ProcStep)
    requires HaltInv(s) && (InGates(s.pc) || s.pc.Resetting? ==> s.cfg.hasDb) && ProcEnabled(s, step) && RowHalted(s)
    ensures RowHalted(ProcApply(s, step))
  {
    if !HandlesRisk(step) {
      OthersKeepRisk(s, step);
    }
  }

  /** A submission needs memory that is not halted. */
  lemma HaltedSubmitsNothing(s: World, step: ProcStep)
    requires HaltInv(s) && ProcEnabled(s, step) && RowHalted(s)
    ensures ProcApply(s, step).hist.submissions == s.hist.submissions
  {
  }

  lemma HaltedRowStays(s: World, step: WorldStep)
    requires Inv(s) && Enabled(s, step) && RowHalted(s)
    requires !(step.Env? && step.e.OperatorSql?)
    ensures RowHalted(Apply(s, step)) && Apply(s, step).hist.submissions == s.hist.submissions
  {
    match step
    case Proc(p) =>
      HaltedRowProc(s, p);
      HaltedSubmitsNothing(s, p);
    case Bot(b) => HandlersKeepTick(s, b);
    case Env(_) =>
  }

  ghost predicate NoHandEdit(steps: seq<WorldStep>) {
    forall i | 0 <= i < |steps| :: !(steps[i].Env? && steps[i].e.OperatorSql?)
  }

  /** The halt latch across sessions. Once a halted row has landed, no run from
      there submits anything or clears the row, through any ticks, bot commands,
      crashes, restarts and changes of configuration, until the row is edited
      outside the code. */
  lemma {:induction false} HaltLatch(s: World, steps: seq<WorldStep>)
    requires Inv(s) && RowHalted(s) && Possible(s, steps) && NoHandEdit(steps)
    ensures RowHalted(Final(s, steps)) && Final(s, steps).hist.submissions == s.hist.submissions
    decreases |steps|
  {
    if steps != [] {
      InvStep(s, steps[0]);
      HaltedRowStays(s, steps[0]);
      HaltLatch(Apply(s, steps[0]), steps[1..]);
    }
  }

  lemma HaltLatchFromAnyRun(s: World, steps: seq<WorldStep>)
    requires Reachable(s) && RowHalted(s) && Possible(s, steps) && NoHandEdit(steps)
    ensures RowHalted(Final(s, steps)) && Final(s, steps).hist.submissions == s.hist.submissions
    ensures Running(Final(s, steps)) && Final(s, steps).cfg.hasDb ==> Final(s, steps).mem.haltFlag
  {
    ReachableInv(s);
    HaltLatch(s, steps);
    InvRun(s, steps);
  }
}
