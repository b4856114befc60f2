/** The rebalance signal (src/strategy/signal.rs). */
module Signal {

  datatype RebalanceConfig = RebalanceConfig(
    rebalanceOutOfRange: bool,
    nearEdgeTicks: int,
    minNetPnlUsd: real)

  /** `RebalanceConfig::default()`, which the watch loop uses. */
  const DEFAULT_CONFIG := RebalanceConfig(true, 10, 0.0)

  datatype Reason = OutOfRange | PnlBelowThreshold | NearLowerEdge | NearUpperEdge | Healthy

  datatype RebalanceDecision = Hold(reason: Reason) | Rebalance(reason: Reason)

  predicate OutsideRange(tick: int, tickLower: int, tickUpper: int) {
    tick < tickLower || tick > tickUpper
  }

  function ShouldRebalance(tick: int, tickLower: int, tickUpper: int, netPnlUsd: real,
                           config: RebalanceConfig): (decision: RebalanceDecision)
  {
    if config.rebalanceOutOfRange && OutsideRange(tick, tickLower, tickUpper) then
      Rebalance(OutOfRange)
    else if netPnlUsd < config.minNetPnlUsd then
      Hold(PnlBelowThreshold)
    else if tick - tickLower <= config.nearEdgeTicks then
      Rebalance(NearLowerEdge)
    else if tickUpper - tick <= config.nearEdgeTicks then
      Rebalance(NearUpperEdge)
    else
      Hold(Healthy)
  }

  /** Number of ticks between the price and the closer bound; negative outside. */
  function EdgeDistance(tick: int, tickLower: int, tickUpper: int): int {
    if tick - tickLower <= tickUpper - tick then tick - tickLower else tickUpper - tick
  }

  /** The signal in one line: the distance to the closer bound decides, the P&L
      threshold only vetoes near-edge rebalances. */
  lemma SignalMeaning(tick: int, tickLower: int, tickUpper: int, netPnlUsd: real, config: RebalanceConfig)
    ensures ShouldRebalance(tick, tickLower, tickUpper, netPnlUsd, config).Rebalance? <==>
            || (config.rebalanceOutOfRange && EdgeDistance(tick, tickLower, tickUpper) < 0)
            || (netPnlUsd >= config.minNetPnlUsd && EdgeDistance(tick, tickLower, tickUpper) <= config.nearEdgeTicks)
  {
  }

  /** Which reason is given: an out-of-range rebalance only under its switch, a low
      P&L before any near edge, the lower edge before the upper one. */
  lemma SignalReasons(tick: int, tickLower: int, tickUpper: int, netPnlUsd: real, config: RebalanceConfig)
    ensures var decision := ShouldRebalance(tick, tickLower, tickUpper, netPnlUsd, config);
            && (decision.reason == OutOfRange
                <==> config.rebalanceOutOfRange && !(tickLower <= tick <= tickUpper))
            && (decision.reason == PnlBelowThreshold
                <==> netPnlUsd < config.minNetPnlUsd && (config.rebalanceOutOfRange ==> tickLower <= tick <= tickUpper))
            && (decision.reason == NearLowerEdge ==> tick <= tickLower + config.nearEdgeTicks)
            && (decision.reason == NearUpperEdge ==>
                  tickLower + config.nearEdgeTicks < tick && tickUpper - config.nearEdgeTicks <= tick)
            && (decision.reason == Healthy ==>
                  tickLower + config.nearEdgeTicks < tick < tickUpper - config.nearEdgeTicks)
            && (decision.Hold? <==> decision.reason == PnlBelowThreshold || decision.reason == Healthy)
  {
  }
}
