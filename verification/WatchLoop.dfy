/** The watch process as interleaved atomic steps: the tick processor
    (src/main.rs:1048-1678), the Telegram handlers (src/bot/commands.rs,
    src/bot/proposal.rs), session start (src/main.rs:818-912), crashes, and the
    `risk_state` row that outlives the process. Every lock acquisition, channel
    operation and database statement is one step. */
module WatchLoop {
  import opened Numerics
  import opened Signal
  import opened Risk
  import opened RiskPersistence
  import opened Proposal

  datatype Mode = Shadow | Live

  /** Command line and environment of one process. `gatePass` is the answer of
      the shadow gate's database query. */
  datatype Config = Config(mode: Mode, hasDb: bool, gatePass: bool, telegram: bool, limits: Limits)

  /** Startup checks: live mode needs a database and a passed gate, the bot
      needs a database. */
  predicate StartAllowed(cfg: Config) {
    && (cfg.mode.Live? ==> cfg.hasDb && cfg.gatePass)
    && (cfg.telegram ==> cfg.hasDb)
  }

  /** What the processor computes from one pool update before the gates. */
  datatype PoolUpdate = PoolUpdate(
    poolTick: int, tickLower: int, tickUpper: int,
    feesEarned: real, ilUsd: real, positionValue: real,
    driftMargin: Option<real>)

  function SnapshotOf(u: PoolUpdate): PnlSnapshot {
    PnlSnapshot(u.ilUsd, u.feesEarned - AbsReal(u.ilUsd), u.positionValue)
  }

  /** The signal sees fees plus (signed) IL and the default configuration. */
  function DecisionOn(u: PoolUpdate): RebalanceDecision {
    ShouldRebalance(u.poolTick, u.tickLower, u.tickUpper, u.feesEarned + u.ilUsd, DEFAULT_CONFIG)
  }

  /** Where the process is: down, starting, or inside the handling of a tick. */
  datatype Pc =
    | Down | Loading | Resetting | Idle
    | ReadingBefore | Evaluating | Cloning | Persisting | HaltGate | OperatorGate | Deciding
    | Installing | Sending | SendFailed | DroppingFailed | Awaiting | TimedOut | Clearing | Submitting

  /** Local variables of session start and of the tick in progress. */
  datatype Locals = Locals(
    update: PoolUpdate,
    before: RiskState,     // durable fields before evaluate
    action: RiskAction,    // what evaluate returned
    copy: RiskState,       // state loaded at start, or cloned for the write
    id: nat,               // this tick's proposal
    approved: bool)

  // ---------------------------------------------------------------------
  // The approval desk: slot, counter, channels and handlers
  // ---------------------------------------------------------------------

  /** A oneshot channel: the value sent, and which ends have been dropped. */
  datatype Channel = Channel(value: Option<bool>, txGone: bool, rxGone: bool)

  datatype Desk = Desk(
    slot: Option<nat>,             // id of the pending approval
    nextId: Option<nat>,           // proposal counter, seeded at its first use
    channels: map<nat, Channel>,   // by proposal id
    held: multiset<nat>)           // approvals taken by a handler, not sent yet

  const EMPTY_DESK := Desk(None, None, map[], multiset{})

  function DropTx(d: Desk, id: nat): Desk {
    if id in d.channels then d.(channels := d.channels[id := d.channels[id].(txGone := true)]) else d
  }

  function DropRx(d: Desk, id: nat): Desk {
    if id in d.channels then d.(channels := d.channels[id := d.channels[id].(rxGone := true)]) else d
  }

  /** Install a fresh proposal; a sender still in the slot is dropped. */
  function InstallOn(d: Desk, id: nat): Desk {
    var d1 := if d.slot.Some? then DropTx(d, d.slot.value) else d;
    d1.(slot := Some(id), nextId := Some(id + 1), channels := d1.channels[id := Channel(None, false, false)])
  }

  /** `clear_pending`: the pending sender with this id, if still there, is dropped. */
  function ClearOn(d: Desk, id: nat): Desk {
    if d.slot == Some(id) then DropTx(d, id).(slot := Cleared(d.slot, id)) else d
  }

  function TakeOn(d: Desk, id: nat): Desk {
    d.(slot := None, held := d.held + multiset{id})
  }

  /** `tx.send(true)`: reaches the channel unless the receiver is gone. */
  function SendOn(d: Desk, id: nat): Desk
    requires id in d.channels
  {
    var d1 := DropTx(d, id).(held := d.held - multiset{id});
    if d.channels[id].rxGone then d1
    else d1.(channels := d1.channels[id := d1.channels[id].(value := Some(true))])
  }

  // ---------------------------------------------------------------------
  // The world and its history
  // ---------------------------------------------------------------------

  /** What happened in the current process; `n` numbers its ticks. */
  datatype Event =
    | Evaluated(n: nat, action: RiskAction)
    | GateRead(n: nat, operatorPause: bool)
    | Decided(n: nat, decision: RebalanceDecision)
    | Installed(n: nat, id: nat)
    | Taken(id: nat)
    | Sent(id: nat)
    | Received(n: nat, id: nat)
    | Expired(id: nat)
    | Submitted(n: nat)

  datatype History = History(
    n: nat,               // ticks started by this process
    log: seq<Event>,      // events of this process
    trail: seq<Event>,    // the ones the tick in progress relies on
    runs: seq<Run>,       // proposals of all processes
    submissions: nat)     // submissions of all processes

  datatype World = World(
    row: Option<RiskState>,   // the pool's risk_state row; survives the process
    now: nat,                 // unix seconds
    cfg: Config,
    pc: Pc,
    mem: RiskState,           // the shared monitor's state
    vars: Locals,
    desk: Desk,
    flags: multiset<bool>,    // pause handlers that wrote the row but not memory
    hist: History)

  function Log(h: History, e: Event): History {
    h.(log := h.log + [e])
  }

  /** An event of this tick. */
  function Note(h: History, e: Event): History {
    h.(log := h.log + [e], trail := h.trail + [e])
  }

  datatype ProcStep =
    | Load(ok: bool)
    | Reset(ok: bool)
    | TickArrives(arrived: PoolUpdate)
    | ReadBefore
    | Evaluate
    | Clone
    | Persist(landed: bool)
    | PassHaltGate
    | PassOperatorGate
    | Decide
    | Install
    | Send(ok: bool)
    | ClearFailed
    | DropFailed
    | Receive
    | ReceiveClosed
    | Timeout
    | DropReceiver
    | Clear
    | Submit

  datatype BotStep =
    | ApproveTake(requested: nat)
    | ApproveSend(sentId: nat)
    | ApproveAbort(abortedId: nat)
    | FlagRow(rowPaused: bool)
    | FlagMemory(memPaused: bool)

  datatype EnvStep =
    | Launch(launched: Config)
    | Stop
    | ClockAdvances
    | OperatorSql(edited: RiskState)

  datatype WorldStep = Proc(p: ProcStep) | Bot(b: BotStep) | Env(e: EnvStep)

  predicate Running(s: World) {
    !s.pc.Down? && !s.pc.Loading? && !s.pc.Resetting?
  }

  /** The channel the processor is waiting on. */
  function Waiting(s: World): Channel {
    if s.vars.id in s.desk.channels then s.desk.channels[s.vars.id] else Channel(None, true, true)
  }

  predicate ProcEnabled(s: World, step: ProcStep) {
    match step
    case Load(_) => s.pc.Loading?
    case Reset(_) => s.pc.Resetting? && s.row.Some?
    case TickArrives(_) => s.pc.Idle?
    case ReadBefore => s.pc.ReadingBefore?
    case Evaluate => s.pc.Evaluating?
    case Clone => s.pc.Cloning?
    case Persist(_) => s.pc.Persisting?
    case PassHaltGate => s.pc.HaltGate?
    case PassOperatorGate => s.pc.OperatorGate?
    case Decide => s.pc.Deciding?
    case Install => s.pc.Installing?
    case Send(_) => s.pc.Sending?
    case ClearFailed => s.pc.SendFailed?
    case DropFailed => s.pc.DroppingFailed?
    case Receive => s.pc.Awaiting? && Waiting(s).value.Some?
    case ReceiveClosed => s.pc.Awaiting? && Waiting(s).value.None? && Waiting(s).txGone
    case Timeout => s.pc.Awaiting? && Waiting(s).value.None? && !Waiting(s).txGone
    case DropReceiver => s.pc.TimedOut?
    case Clear => s.pc.Clearing?
    case Submit => s.pc.Submitting?
  }

  /** The receiver is dropped unapproved. */
  function GiveUp(s: World, next: Pc): World {
    s.(desk := DropRx(s.desk, s.vars.id), hist := Log(s.hist, Expired(s.vars.id)),
       vars := s.vars.(approved := false), pc := next)
  }

  function ProcApply(s: World, step: ProcStep): World
    requires ProcEnabled(s, step)
  {
    var v, h := s.vars, s.hist;
    match step
    case Load(ok) =>
      if !s.cfg.hasDb then s.(pc := Idle)
      else if !ok then s.(pc := Down)
      else
        var loaded := RiskPersistence.Load(s.row);
        s.(row := Some(loaded), vars := v.(copy := loaded), pc := Resetting)
    case Reset(ok) =>
      if !ok then s.(pc := Down)
      else s.(row := Some(ResetSession(s.row.value)), mem := ResetSession(v.copy), pc := Idle)
    case TickArrives(u) =>
      s.(vars := v.(update := u), hist := h.(n := h.n + 1, trail := []),
         pc := if s.cfg.hasDb then ReadingBefore else Deciding)
    case ReadBefore => s.(vars := v.(before := s.mem), pc := Evaluating)
    case Evaluate =>
      var (mem, action) := Step(s.cfg.limits, s.mem, SnapshotOf(v.update), v.update.driftMargin);
      s.(mem := mem, vars := v.(action := action), hist := Note(h, Evaluated(h.n, action)), pc := Cloning)
    case Clone =>
      s.(vars := v.(copy := s.mem), pc := if Durable(s.mem) != Durable(v.before) then Persisting else HaltGate)
    case Persist(landed) => s.(row := if landed then Some(v.copy) else s.row, pc := HaltGate)
    case PassHaltGate => s.(pc := if v.action.HaltAll? || v.action.PauseRebalancing? then Idle else OperatorGate)
    case PassOperatorGate =>
      s.(hist := Note(h, GateRead(h.n, s.mem.operatorPause)), pc := if s.mem.operatorPause then Idle else Deciding)
    case Decide =>
      var decision := DecisionOn(v.update);
      s.(hist := Note(h, Decided(h.n, decision)),
         pc := if decision.Hold? then Idle else if s.cfg.telegram then Installing else Submitting)
    case Install =>
      var id := NextId(s.desk.nextId, s.now);
      s.(desk := InstallOn(s.desk, id), vars := v.(id := id),
         hist := Note(h, Installed(h.n, id)).(runs := Record(h.runs, s.desk.nextId, id)), pc := Sending)
    case Send(ok) => s.(pc := if ok then Awaiting else SendFailed)
    case ClearFailed => s.(desk := ClearOn(s.desk, v.id), pc := DroppingFailed)
    case DropFailed => GiveUp(s, Idle)
    case Receive =>
      if Waiting(s).value == Some(true) then
        s.(desk := DropRx(s.desk, v.id), vars := v.(approved := true), pc := Clearing,
           hist := Log(h, Received(h.n, v.id)).(trail := h.trail + [Taken(v.id), Sent(v.id), Received(h.n, v.id)]))
      else GiveUp(s, Clearing)
    case ReceiveClosed => GiveUp(s, Clearing)
    case Timeout => s.(pc := TimedOut)
    case DropReceiver => GiveUp(s, Clearing)
    case Clear => s.(desk := ClearOn(s.desk, v.id), pc := if v.approved then Submitting else Idle)
    case Submit =>
      if s.cfg.mode.Live? then s.(hist := Log(h, Submitted(h.n)).(submissions := h.submissions + 1), pc := Idle)
      else s.(pc := Idle)
  }

  predicate BotEnabled(s: World, step: BotStep) {
    && Running(s) && s.cfg.telegram
    && match step
       case ApproveTake(_) => true
       case ApproveSend(id) => id in s.desk.held && id in s.desk.channels
       case ApproveAbort(id) => id in s.desk.held
       case FlagRow(_) => s.row.Some?
       case FlagMemory(paused) => paused in s.flags
  }

  function BotApply(s: World, step: BotStep): World
    requires BotEnabled(s, step)
  {
    match step
    case ApproveTake(id) =>
      if s.desk.slot == Some(id) then s.(desk := TakeOn(s.desk, id), hist := Log(s.hist, Taken(id))) else s
    case ApproveSend(id) =>
      s.(desk := SendOn(s.desk, id), hist := if s.desk.channels[id].rxGone then s.hist else Log(s.hist, Sent(id)))
    case ApproveAbort(id) => s.(desk := DropTx(s.desk, id).(held := s.desk.held - multiset{id}))
    case FlagRow(paused) =>
      s.(row := Some(s.row.value.(operatorPause := paused)), flags := s.flags + multiset{paused})
    case FlagMemory(paused) =>
      s.(mem := s.mem.(operatorPause := paused), flags := s.flags - multiset{paused})
  }

  predicate EnvEnabled(s: World, step: EnvStep) {
    match step
    case Launch(cfg) => s.pc.Down? && StartAllowed(cfg)
    case Stop => !s.pc.Down?
    case ClockAdvances => true
    case OperatorSql(_) => s.pc.Down?
  }

  /** Crash and clean exit look alike: everything but the row is lost. The
      operator edits the row by hand only while the process is down. */
  function EnvApply(s: World, step: EnvStep): World
    requires EnvEnabled(s, step)
  {
    match step
    case Launch(cfg) =>
      s.(cfg := cfg, pc := Loading, mem := FRESH_STATE, desk := EMPTY_DESK, flags := multiset{},
         hist := s.hist.(n := 0, log := [], trail := []))
    case Stop => s.(pc := Down)
    case ClockAdvances => s.(now := s.now + 1)
    case OperatorSql(edited) => s.(row := Some(edited))
  }

  predicate Enabled(s: World, step: WorldStep) {
    match step
    case Proc(p) => ProcEnabled(s, p)
    case Bot(b) => BotEnabled(s, b)
    case Env(e) => EnvEnabled(s, e)
  }

  function Apply(s: World, step: WorldStep): World
    requires Enabled(s, step)
  {
    match step
    case Proc(p) => ProcApply(s, p)
    case Bot(b) => BotApply(s, b)
    case Env(e) => EnvApply(s, e)
  }

  /** Before the first launch: any stored row, any clock, no history. */
  predicate Init(s: World) {
    s.pc.Down? && s.hist == History(0, [], [], [], 0)
  }

  /** All steps are possible, one after the other. */
  predicate Possible(s: World, steps: seq<WorldStep>)
    decreases |steps|
  {
    steps == [] || (Enabled(s, steps[0]) && Possible(Apply(s, steps[0]), steps[1..]))
  }

  function Final(s: World, steps: seq<WorldStep>): World
    requires Possible(s, steps)
    decreases |steps|
  {
    if steps == [] then s else Final(Apply(s, steps[0]), steps[1..])
  }

  /** Some run from some initial world ends here. */
  ghost predicate Reachable(s: World) {
    exists init, steps :: Init(init) && Possible(init, steps) && Final(init, steps) == s
  }
}
