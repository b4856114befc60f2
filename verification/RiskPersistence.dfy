/** Session start and debounced persistence of the risk state
    (src/main.rs:852-883 and 1305-1390, src/bot/commands.rs:115-173), with bot
    commands running between ticks and every database write succeeding. */
module RiskPersistence {
  import opened Numerics
  import opened Risk

  /** The fields whose change triggers a write; the drawdown is left out. */
  function Durable(st: RiskState): (real, bool, bool, bool) {
    (st.peakPnl, st.pauseFlag, st.haltFlag, st.operatorPause)
  }

  /** `load_or_init`: the stored row, or a fresh one. */
  function Load(row: Option<RiskState>): RiskState {
    if row.Some? then row.value else FRESH_STATE
  }

  /** `reset_session`, on the row and on the loaded state alike. */
  function ResetSession(st: RiskState): RiskState {
    st.(peakPnl := 0.0, currentDrawdownPct := 0.0)
  }

  /** The running session: memory and the pool's `risk_state` row. */
  datatype Session = Session(limits: Limits, mem: RiskState, row: RiskState)

  function StartSession(row: Option<RiskState>, limits: Limits): Session {
    var st := ResetSession(Load(row));
    Session(limits, st, st)
  }

  datatype Op =
    | Tick(input: TickInput)
    | SetPause(paused: bool)
    | Restart(limits: Limits)

  /** The code: write the row only when a durable field changed. */
  function Debounced(s: Session, op: Op): Session {
    match op
    case Tick(input) =>
      var mem := Step(s.limits, s.mem, input.snap, input.drift).0;
      s.(mem := mem, row := if Durable(mem) != Durable(s.mem) then mem else s.row)
    case SetPause(paused) =>
      s.(row := s.row.(operatorPause := paused), mem := s.mem.(operatorPause := paused))
    case Restart(limits) => StartSession(Some(s.row), limits)
  }

  /** The reference: write the row on every tick. */
  function Eager(s: Session, op: Op): Session {
    match op
    case Tick(input) =>
      var mem := Step(s.limits, s.mem, input.snap, input.drift).0;
      s.(mem := mem, row := mem)
    case _ => Debounced(s, op)
  }

  function RunDebounced(s: Session, ops: seq<Op>): Session
    decreases |ops|
  {
    if ops == [] then s else RunDebounced(Debounced(s, ops[0]), ops[1..])
  }

  function RunEager(s: Session, ops: seq<Op>): Session
    decreases |ops|
  {
    if ops == [] then s else RunEager(Eager(s, ops[0]), ops[1..])
  }

  /** The watch process: the shared monitor object and its row in the database. */
  class WatchSession {
    var monitor: RiskMonitor
    var row: RiskState

    ghost function Abstract(): Session
      reads this, monitor
    {
      Session(monitor.limits, monitor.state, row)
    }

    /** Session start: load or insert, reset the session fields in the row, then
        the same in memory. The halt and pause flags are carried over. */
    constructor (stored: Option<RiskState>, limits: Limits)
      ensures fresh(monitor) && Abstract() == StartSession(stored, limits)
      ensures monitor.limits == limits && monitor.state == row && row.peakPnl == 0.0 && row.currentDrawdownPct == 0.0
      ensures row.haltFlag == (stored.Some? && stored.value.haltFlag)
      ensures row.pauseFlag == (stored.Some? && stored.value.pauseFlag)
      ensures row.operatorPause == (stored.Some? && stored.value.operatorPause)
    {
      var loaded := FRESH_STATE;
      if stored.Some? {
        loaded := stored.value;
      }
      row := loaded.(peakPnl := 0.0, currentDrawdownPct := 0.0);
      loaded := loaded.(peakPnl := 0.0);
      loaded := loaded.(currentDrawdownPct := 0.0);
      monitor := new RiskMonitor(loaded, limits);
    }

    /** The risk gate of one tick. Returns whether the rest of the tick is
        skipped: on a halt and on an IL pause, not on a resume or hedge close. */
    method RiskGate(input: TickInput) returns (skip: bool)
      modifies this, monitor
      ensures monitor == old(monitor) && monitor.limits == old(monitor.limits)
      ensures Abstract() == Debounced(old(Abstract()), Tick(input))
      ensures skip <==> monitor.state.haltFlag || OverIlLimit(monitor.limits, input.snap)
    {
      var before := (monitor.state.peakPnl, monitor.state.pauseFlag, monitor.state.haltFlag, monitor.state.operatorPause);
      var action := monitor.Evaluate(input.snap, input.drift);
      skip := action.HaltAll? || action.PauseRebalancing?;
      if !monitor.state.haltFlag {
        PauseMeaning(monitor.limits, old(monitor.state), input.snap, input.drift);
      }
      var riskState := monitor.state;
      var after := (riskState.peakPnl, riskState.pauseFlag, riskState.haltFlag, riskState.operatorPause);
      if after != before {
        row := riskState;
      }
    }

    /** `/pause` and `/resume`: first the row, then the memory. */
    method SetOperatorPause(paused: bool)
      modifies this, monitor
      ensures monitor == old(monitor) && monitor.limits == old(monitor.limits)
      ensures Abstract() == Debounced(old(Abstract()), SetPause(paused))
      ensures monitor.state == old(monitor.state).(operatorPause := paused) && row == old(row).(operatorPause := paused)
    {
      row := row.(operatorPause := paused);
      monitor.SetOperatorPause(paused);
    }
  }

  // ---------------------------------------------------------------------
  // Refinement
  // ---------------------------------------------------------------------

  /** Row and memory agree on every durable field. */
  predicate InStep(s: Session) {
    Durable(s.row) == Durable(s.mem)
  }

  /** Same memory, and rows that differ at most in the derived drawdown. */
  predicate Indistinguishable(s: Session, r: Session) {
    s.limits == r.limits && s.mem == r.mem && Durable(s.row) == Durable(r.row)
  }

  lemma OpKeepsAgreement(s: Session, r: Session, op: Op)
    requires InStep(s) && Indistinguishable(s, r)
    ensures InStep(Debounced(s, op)) && Indistinguishable(Debounced(s, op), Eager(r, op))
  {
  }

  /** Debouncing is invisible: along every sequence of ticks, operator commands
      and restarts the debounced row carries exactly the durable fields of
      memory, as if it were written on every tick; and because a session start
      resets the one excluded field, every later session starts identically. */
  lemma {:induction false} DebounceRefinesEager(s: Session, r: Session, ops: seq<Op>)
    requires InStep(s) && Indistinguishable(s, r)
    ensures var s', r' := RunDebounced(s, ops), RunEager(r, ops);
            && InStep(s') && Indistinguishable(s', r')
            && s'.mem == r'.mem && s'.row == s'.mem.(currentDrawdownPct := s'.row.currentDrawdownPct)
            && forall limits :: StartSession(Some(s'.row), limits) == StartSession(Some(r'.row), limits)
    decreases |ops|
  {
    if ops != [] {
      OpKeepsAgreement(s, r, ops[0]);
      DebounceRefinesEager(Debounced(s, ops[0]), Eager(r, ops[0]), ops[1..]);
    }
  }

  /** A drawdown halt survives every sequence of ticks, commands and restarts. */
  lemma {:induction false} HaltSurvives(s: Session, ops: seq<Op>)
    requires InStep(s) && s.mem.haltFlag
    ensures RunDebounced(s, ops).mem.haltFlag && RunDebounced(s, ops).row.haltFlag
    decreases |ops|
  {
    if ops != [] {
      OpKeepsAgreement(s, s, ops[0]);
      HaltSurvives(Debounced(s, ops[0]), ops[1..]);
    }
  }
}
