# Verified model of tick-liq

tick-liq watches a concentrated-liquidity position on Orca Whirlpools, decides when to rebalance it, asks an operator
for approval over Telegram, replays tick history, and does the arithmetic of such positions. This project models that
behaviour in Dafny and proves properties of the model. `dafny verify dfyconfig.toml` checks everything.

## How the model is organised

| file | models |
|---|---|
| `Numerics.dfy`, `Ticks.dfy` | integer widths, ordered-field facts, ticks and their prices |
| `RiskMonitor.dfy`, `RiskPersistence.dfy` | the risk evaluator object, session start and debounced persistence |
| `Proposal.dfy` | proposal counter, one-place approval slot, oneshot channels |
| `WatchLoop.dfy` | the watch process as interleaved atomic steps over memory, database row, slot, channels and program counter, with crashes and restarts |
| `WatchSafety.dfy`, `WatchSubmission.dfy` | what every run of it guarantees, and what a tick and a submission mean in plain amounts |
| `WatchRuns.dfy`, `WatchSenders.dfy`, `WatchPause.dfy`, `WatchStop.dfy`, `WatchApproval.dfy`, `WatchHalt.dfy` | where a sender is, exactly when a pause stays and stops submissions, when "Executing" means execution, when a halt is stored |
| `WatchFindings.dfy` | reachable states in which these promises fail |
| `Fees.dfy`, `ImpermanentLoss.dfy`, `IlComparison.dfy`, `Metrics.dfy`, `Signal.dfy`, `RebalancePlan.dfy` | the pure arithmetic |
| `Depth.dfy`, `TickArrays.dfy`, `Impact.dfy`, `ImpactLadder.dfy`, `PoolImpact.dfy` | liquidity distribution, tick-array window, impact walk, and their composition |
| `DayRollup.dfy`, `DbReplay.dfy`, `ReplayFees.dfy`, `IlLedger.dfy`, `ReplayLedger.dfy`, `ReplayScaling.dfy`, `ReplayDays.dfy`, `ReplayRows.dfy`, `ResearchArms.dfy` | the database replay, its accounting, and what its days and rows mean |
| `Backfill.dfy`, `CandlePrices.dfy`, `SyntheticBacktest.dfy`, `SyntheticDays.dfy` | candle synthesis and the synthetic engine |

## Conventions

- `f64` values are `real`. Square roots and the tick of a price come from functions passed in (`RealMath`, or `sqrt` and
  `tickOf` alone), of which lemmas use only `s >= 0 && s * s == p` and `1.0001^t <= p < 1.0001^(t+1)`. Q64.64 and
  u64/u128 arithmetic is exact, with wrapping, saturation and truncation written out; `as u128` of a real truncates
  and saturates, with the upper threshold at 2^128 as in the source.
- In `compute_il` a negative price has a NaN root in the source, which ends in 0 through `min(0)`; the model returns 0.
- One pool and one watch process at a time. Every lock acquisition, channel operation and database statement is one
  atomic step; a Telegram send, a database statement and the shadow gate's query succeed or fail freely.
- A crash and a clean exit lose everything but the row.

## Where the code and its documentation differ

- "Executing rebalance" does not imply execution (`WatchFindings.ExecutingIsNotExecution`); in a process that lives
  on for four more processor steps it does exactly when the processor was awaiting the answer or its message is
  delivered (`WatchApproval.ExecutingIsExecutionIff`); a crash in between loses it too. Execution does imply a matched
  approval (`WatchSubmission.SubmissionSafety`).
- A confirmed `/pause` can be overwritten by a state clone taken before memory was paused
  (`WatchFindings.PauseLostBetweenHalves`); `WatchPause.PauseHandlerSticksIff` and `WatchPause.PauseAlwaysSticksIff` say
  exactly when.
- A confirmed `/pause` does not stop a proposal already past the operator gate
  (`WatchFindings.PauseDuringApprovalIsTooLate`); `WatchStop.PauseStopsSubmissionsIff` says exactly when it stops
  everything.
- The monitor promises that a breach is stored immediately; that takes a write that succeeds
  (`WatchHalt.HaltReachesRowByWriteIff`). There is one attempt, repeated only when a pause or resume command acts inside
  a later tick (`WatchHalt.HaltReachesRowIff`, `WatchHalt.CommandCanSave`); a restart before that forgets the halt
  (`WatchHalt.RestartForgets`, `WatchFindings.HaltForgotten`).
- The clock seed of proposal ids prevents repeats across restarts only up to one proposal per second
  (`WatchSafety.IdsAcrossRestarts`, `WatchFindings.IdRepeatsAfterRestart`).
- The depth documentation says "active L mid-bucket"; the code reports the liquidity at the bucket's start
  (`Depth.MidBucketIff`, `Depth.MidBucketMissed`).
- The synthetic engine says it triggers "only on full out-of-range"; near-edge distance 0 also fires at the boundary
  (`SyntheticBacktest.InRangeRebalanceIff`, `SyntheticBacktest.HalvedPriceRebalances`).
- The database mode calls near-edge distance "0 = off"; it also fires at a bound, and outside with the out-of-range
  switch off, at a non-negative P&L (`ResearchArms.ZeroEdgeIsOffIff`, `ResearchArms.ZeroEdgeRebalances`).
- "Near-edge off can never be true" holds for on-chain ticks and bounds; the exact condition is `ResearchArms.HoldArmIff`,
  and `ResearchArms.HoldArmCanRebalance` is an input that breaks it.
- That the full-range formula "understates concentrated IL" is decided for every entry and price by
  `IlComparison.ComparisonIff` and `IlComparison.AtZeroIff`. It holds with both prices in range
  (`ImpermanentLoss.DeeperThanFullRange`) and far enough out of it. It can fail for positions entered beyond a bound, also
  back in range (`IlComparison.ShallowerInside`), and for prices just outside a bound close to the entry.
- The planner promises to preserve the old width and to align both bounds; widths under two spacings can come out two
  spacings wide (`RebalancePlan.WidthPreservedIff`), and the upper bound is aligned only with the width
  (`RebalancePlan.PlanKeepsShape`).

## Model

| member | source | states |
|---|---|---|
| `WatchSubmission.SubmissionSafety` | src/main.rs:1285-1618 | in every interleaving of ticks, bot handlers, crashes and restarts, a submission that the guard lets through happens in live mode behind a passed gate, with memory not halted; the price was out of range, or within ten ticks of a bound with fees covering the signed IL; the size of IL was within its percentage of the position, and the fall of fees less the size of IL below the mark within its percentage of it; and this very tick logged, in order: an evaluation that neither halts nor pauses, an operator gate that read false, a Rebalance decision and, with the bot, its own proposal installed, taken, answered true and received |
| `WatchSubmission.TickMeaning` | src/main.rs:1236-1447 | one uninterrupted tick, for every state, limits and update: it goes on to a proposal or submission if and only if the monitor neither is nor becomes halted, IL is within its limit, the operator has not paused and the price is out of range or near a bound with fees covering IL, all in plain amounts; mark and halt afterwards; and the row agrees with memory again if its write lands |
| `WatchSubmission.TickWithoutDatabase` | src/main.rs:1416-1447 | without a database the tick goes on if and only if the price is out of range or near a bound with fees covering IL, and neither monitor nor row changes |
| `WatchSubmission.DecideMeaning` | src/main.rs:1416-1421 | the decision step keeps the tick alive if and only if the tick is outside the bounds, or within 10 of one with fees plus signed IL not negative |
| `WatchSubmission.EvaluateMeaning` | src/main.rs:1236-1245 | the evaluation step halts, marks and passes in terms of the update's fees less the size of its IL, that size, and its position value |
| `WatchSafety.ApprovalProtocol` | src/bot/proposal.rs:73-131 | in every reachable state the slot is occupied only between install and clear of exactly the active, newest proposal; no id is taken twice; after a timeout, failed send or dropped receiver no later event approves that id, even if a handler already holds its sender |
| `WatchSenders.AwaitingMeaning` | src/bot/proposal.rs:98-131 | in every reachable state awaiting an answer exactly one of three applies: a handler has sent `true` and it is received; a handler took the sender and lost it, and the channel is closed; or the sender is still pending or held, and only the timeout can end the wait |
| `WatchSenders.SenderInvStep` | src/bot/commands.rs:244-263 | every step keeps: a channel's sender is gone if and only if neither slot nor a handler has it, an answer is `true` and consumed it, and nobody holds a sender twice |
| `WatchSafety.IdsAcrossRestarts` | src/bot/proposal.rs:18-25 | over all runs, ids are distinct across processes if and only if no process allocated more ids than seconds passed until the next one's first proposal |
| `WatchFindings.IdRepeatsAfterRestart` | src/bot/proposal.rs:18-25 | a reachable state exists in which two proposals in one second and a restart in the next hand out the same id in two processes |
| `WatchSafety.HaltLatch` | src/strategy/risk_monitor.rs:112-234 | from any state satisfying the invariant with a halted row, no sequence of steps without a hand edit of the row submits anything or clears the row |
| `WatchSafety.HaltLatchFromAnyRun` | src/main.rs:852-883 | the same from every reachable state, and every later process with a database starts and stays halted in memory |
| `WatchSafety.ReachableInv` | src/main.rs:1285-1618 | the conjunction of desk, slot, log, stage, order, halt and run invariants holds in every reachable state |
| `WatchSafety.InvStep` | src/main.rs:1048-1678 | each single step of processor, handlers or environment keeps that invariant |
| `WatchSafety.HaltInvProc` | src/main.rs:1309-1390 | every processor step keeps "row halted implies memory halted", also across the gap between cloning the state and writing it |
| `WatchSafety.HaltInvBot` | src/bot/commands.rs:115-173 | the two-step pause and resume handlers keep it too |
| `WatchSafety.SlotInvProc` | src/main.rs:1556-1588 | processor steps keep the slot empty outside install to clear, and inside hold at most the active proposal |
| `WatchSafety.SlotInvBot` | src/bot/commands.rs:244-257 | handler steps keep it |
| `WatchSafety.LogInvProc` | src/bot/proposal.rs:98-131 | processor steps keep "taken at most once" and "expired is final" in the event log |
| `WatchSafety.LogInvBot` | src/bot/commands.rs:244-279 | handler steps keep them, with take and send as separate steps |
| `WatchSafety.StageInvProc` | src/main.rs:1319-1618 | each stage of a tick is reached only through the ones before it, and its trail of events is exactly what those stages noted |
| `WatchSafety.OrderInvProc` | src/bot/proposal.rs:110-131 | a value in the active channel was sent after the id was taken, which was after the proposal was installed in this tick |
| `WatchSafety.HaltedRowStays` | src/main.rs:1364-1390 | one step from a halted row neither submits nor clears it |
| `WatchPause.ConfirmedPauseSticksIff` | src/bot/commands.rs:115-139 | from the step that writes memory and confirms a /pause: the row keeps the pause on every run without further pause commands or hand edits, restarts included, if and only if the row still carries it and no un-paused clone is being written |
| `WatchPause.PauseHandlerSticksIff` | src/bot/commands.rs:120-131 | the same for the whole handler with arbitrary steps between its row half and its memory half: what counts is the world the second half finds |
| `WatchPause.PauseAlwaysSticksIff` | src/main.rs:1364-1390 | over every interleaving between and after the halves, from any reachable state: the pause can never be lost if and only if at the first half no un-paused clone is being written and memory is paused already, or halted with no write to come; so the first /pause of a healthy session can be lost |
| `WatchPause.PauseHeldRun` | src/bot/commands.rs:115-139 | once row, memory and any clone on its way carry the pause, every untouched run keeps it in the row, across restarts |
| `WatchFindings.PauseLostBetweenHalves` | src/main.rs:1364-1390 | a reachable state exists in which the bot has confirmed the pause, memory is paused, and the row is not |
| `WatchStop.PauseStopsSubmissionsIff` | src/main.rs:1396-1406 | with memory paused, no untouched run submits anything, in this process or a later one, if and only if the tick in progress is not past the operator gate with a live Rebalance decision that can still be approved (or needs no approval), and row and any clone being written are paused or halted |
| `WatchStop.ConfirmedPauseStopsSubmissionsIff` | src/bot/commands.rs:115-139 | the same condition, read just before the confirming step of a /pause, decides whether the confirmed pause stops all submissions |
| `WatchApproval.ExecutingIsExecutionIff` | src/bot/commands.rs:259-279 | on every run of a living process with four more processor steps, an "Executing" reply leads to the approval being received, and in live mode to a submission of that tick, if and only if at the reply the processor was awaiting it, or still sending a message that is then delivered; never after a timeout or failed send |
| `WatchHalt.HaltReachesRowByWriteIff` | src/main.rs:1364-1390 | when writes may fail and whatever commands arrive: along every run of one process, a halt in memory but not in the row reaches the row if and only if some write in the run succeeds |
| `WatchHalt.HaltReachesRowIff` | src/main.rs:1364-1390 | without pause and resume commands: if and only if the tick that raised it still has its write before it and that one write succeeds; it is not repeated |
| `WatchHalt.CommandCanSave` | src/main.rs:1309-1390 | from every world between ticks with the bot, a pause or resume command acting inside the next tick makes the monitor write again and saves the halt |
| `WatchHalt.RestartForgets` | src/main.rs:852-883 | from every world with a halt in memory only, a restart leads to a running process that is not halted |
| `WatchFindings.HaltForgotten` | src/strategy/risk_monitor.rs:196-207 | a reachable state exists, by P&L 10 and then 0 under a 10 percent limit and one failed write, that is halted in memory, has no write pending, and from which a restart runs un-halted |
| `WatchHalt.RestartReadsRow` | src/strategy/risk_monitor.rs:112-194 | a new process with a database has row and memory equal, with mark and drawdown 0 and the stored halt, pause and operator flags, or none without a row; so it is halted if and only if the row is |
| `WatchRuns.TickProgresses` | src/main.rs:1392-1618 | past the write of the risk state the processor always has a next step, which brings the tick nearer its end and changes neither monitor nor row |
| `WatchFindings.ExecutingIsNotExecution` | src/bot/commands.rs:259-279 | a reachable state exists in which the bot answered "Executing" for a proposal that timed out, and nothing was submitted; the exact condition is WatchApproval.ExecutingIsExecutionIff |
| `WatchFindings.PauseDuringApprovalIsTooLate` | src/main.rs:1396-1406 | a reachable state exists in which row and memory are paused and the next step submits; the exact condition is WatchStop.PauseStopsSubmissionsIff |
| `Risk.RiskMonitor.constructor` | src/strategy/risk_monitor.rs:89-105 | a monitor starts with the given state and limits |
| `Risk.RiskMonitor.Evaluate` | src/strategy/risk_monitor.rs:434-502 | state and action after one evaluation are those of the pure step function, for all inputs |
| `Risk.RiskMonitor.SetOperatorPause` | src/bot/commands.rs:122-125 | only the operator flag changes |
| `Risk.StepContract` | src/strategy/risk_monitor.rs:434-502 | the halt is a latch, the mark is the running maximum, a halt is reported exactly in halted states, and with an IL limit an un-halted monitor is paused exactly when this tick's IL exceeds it, so a resume follows only a pause |
| `Risk.DrawdownMeaning` | src/strategy/risk_monitor.rs:443-462 | without percentages: the mark is the larger of mark and net; it halts if and only if a limit is set, the mark is at least 1 USD and 100 times the fall exceeds limit times mark; the stored drawdown times the mark is 100 times the fall when measured and otherwise unchanged |
| `Risk.PauseMeaning` | src/strategy/risk_monitor.rs:464-502 | which of pause, resume, hedge close and continue an un-halted monitor returns, and the pause it leaves: pause if and only if 100 times the size of IL exceeds limit times position value (a position without value counts as 0 percent), resume from a pause otherwise, hedge close below the margin limit only when neither |
| `Risk.ReportedIl` | src/strategy/risk_monitor.rs:464-485 | the percentage reported with a pause or resume, times the position value, is 100 times the size of IL |
| `Risk.HaltIsBatchDrawdown` | src/strategy/risk_monitor.rs:443-462 | for every tick sequence from a zero peak: halted if and only if the maximum drawdown of the P&L values from the first value of at least 1 USD on is below minus the limit |
| `Risk.HaltFromFirstTick` | src/strategy/risk_monitor.rs:448-462 | when the first value is at least 1 USD, halted if and only if the batch maximum drawdown of all values is below minus the limit |
| `RiskPersistence.WatchSession.constructor` | src/main.rs:852-883 | session start loads or inserts the row: peak and drawdown are 0 in row and memory, halt, pause and operator flags are the stored ones or false |
| `RiskPersistence.WatchSession.RiskGate` | src/main.rs:1305-1390 | one tick changes memory by the step function and writes the row only if a durable field changed; the tick is skipped exactly on a halt or when 100 times the size of IL exceeds limit times position value |
| `RiskPersistence.WatchSession.SetOperatorPause` | src/bot/commands.rs:120-125 | row and memory both get the flag, nothing else changes |
| `RiskPersistence.DebounceRefinesEager` | src/main.rs:1305-1390 | along every sequence of ticks, commands and restarts the debounced row equals memory in everything but the drawdown percentage and equals the row of a variant that writes on every tick in all durable fields, and every later session starts identically |
| `RiskPersistence.HaltSurvives` | src/strategy/risk_monitor.rs:171-194 | a halted session is halted in memory and row after every such sequence |
| `Proposal.Oneshot.constructor` | src/bot/proposal.rs:80-80 | a fresh channel is empty with both ends alive |
| `Proposal.Oneshot.Send` | src/bot/commands.rs:261-263 | sending succeeds exactly while the receiver is alive, and then stores the value |
| `Proposal.ApprovalSlot.constructor` | src/bot/mod.rs:13-23 | the slot starts empty and the counter unseeded |
| `Proposal.ApprovalSlot.Install` | src/bot/proposal.rs:79-85 | the new id is the counter's value, or at first use the clock's second, at least 1; the counter is bumped, and the slot holds exactly the new proposal with a fresh channel |
| `Proposal.ApprovalSlot.ClearPending` | src/bot/proposal.rs:103-108 | the slot is emptied exactly if it holds that id; any other proposal stays |
| `Proposal.ApprovalSlot.SendProposal` | src/bot/proposal.rs:73-96 | on success the slot holds the new proposal and the caller its receiver; on a failed send the slot is empty and there is no receiver |
| `Proposal.ApprovalSlot.Take` | src/bot/commands.rs:244-257 | the approval is handed out exactly for the pending id and taking empties the slot; otherwise nothing changes and the pending id is reported |
| `Proposal.ApprovalSlot.HandleApprove` | src/bot/commands.rs:222-296 | uninterrupted, "Executing" is answered exactly when the id was pending and its receiver alive, and then true is in the channel |
| `Proposal.DistinctIffOnePerSecond` | src/bot/proposal.rs:18-25 | for every chronological list of processes: ids never repeat across processes if and only if each made at most one proposal per second until the next one's first |
| `Fees.AccruedFeesAreExact` | src/math/fees.rs:9-28 | for all u128 inputs the split computation equals floor(((global - checkpoint) mod 2^128) * L / 2^64) mod 2^64 |
| `Fees.HalvesFit` | src/math/fees.rs:15-26 | no partial product of the halves overflows u128 |
| `Fees.CuttingLosesAtMostOnePerCut` | src/math/fees.rs:14-27 | for every non-decreasing true total across counter wraps, collecting in n pieces pays at most the whole and at least the whole less n - 1 |
| `Fees.CounterGap` | src/math/fees.rs:14-14 | wrapping subtraction of two counters recovers the true gap below 2^128 |
| `ImpermanentLoss.IlBounds` | src/math/il.rs:51-79 | for positive entry and 0 < lower < upper the result is in [-1, 0], and is 0 if and only if the clamped sqrt prices of entry and current coincide |
| `ImpermanentLoss.IlAsRatio` | src/math/il.rs:66-78 | the result is V_LP / V_HODL - 1 with V_HODL positive, so the final min(0) is redundant |
| `ImpermanentLoss.IlDeepensAwayFromEntry` | src/math/il.rs:44-48 | moving the price further from the entry on the same side never makes the loss shallower, inside the range and beyond either bound |
| `ImpermanentLoss.DeeperThanFullRange` | src/math/il.rs:46-48 | with both prices in range the loss is at least as deep as 2*sqrt(k)/(1+k) - 1, strictly once the price has moved |
| `IlComparison.ComparisonIff` | src/math/il.rs:44-48 | for every positive entry and price and every range, wherever both prices lie: concentrated loss at least as deep as the full-range formula if and only if v(1 + q^2) <= 2qh, with q the root of the price ratio and v, h the values of position and holding |
| `IlComparison.AtZeroIff` | src/math/il.rs:44-48 | at price 0 the concentrated loss is at least as deep if and only if the entry was above the lower bound |
| `IlComparison.InRangeIff` | src/math/il.rs:44-48 | price in range, every entry, with r = sqrt(p): if and only if (2r - p/b - a)(1 + q^2) <= 2q((1/s0 - 1/b)p + s0 - a) |
| `IlComparison.EnteredBelowIff` | src/math/il.rs:44-48 | back in range from an entry at or below the lower bound: if and only if (2r - p/b - a)(1 + q^2) <= 2q(1/a - 1/b)p |
| `IlComparison.EnteredAboveIff` | src/math/il.rs:44-48 | back in range from an entry at or above the upper bound: if and only if (2r - p/b - a)(1 + q^2) <= 2q(b - a) |
| `IlComparison.ShallowerInside` | src/math/il.rs:46-48 | entry 1/16 below [1, 4] at price 1.21: in range and the shallower loss |
| `IlComparison.AboveRangeIff` | src/math/il.rs:44-48 | at every price above the range and for every entry, with a, b the roots of the bounds and s0 the clamped entry root: if and only if (b - a)(1 + q^2) <= 2q((1/s0 - 1/b)p + s0 - a) |
| `IlComparison.BelowRangeIff` | src/math/il.rs:44-48 | the mirror below the range: if and only if (1/a - 1/b)p(1 + q^2) <= 2q((1/s0 - 1/b)p + s0 - a) |
| `IlComparison.AllTokenBIff` | src/math/il.rs:44-46 | entered at or above the upper bound, above the range the comparison holds at the entry price only |
| `IlComparison.AllTokenAIff` | src/math/il.rs:44-46 | entered at or below the lower bound, below the range the comparison holds at the entry price only |
| `IlComparison.EventuallyDeeperAbove` | src/math/il.rs:46-48 | for every entry below the upper bound the concentrated loss is the deeper one from a finite price above the range on, given explicitly |
| `IlComparison.EventuallyDeeperBelow` | src/math/il.rs:46-48 | for every entry above the lower bound the same below a positive price |
| `IlComparison.DeeperFarOutside` | src/math/il.rs:46-48 | entry 1 in [1/4, 4] at price 16: out of range and still the deeper loss |
| `IlComparison.ShallowerJustOutside` | src/math/il.rs:46-48 | entry 1 strictly inside [1/4, 1.0201] at price 4: out of range and the shallower loss |
| `ImpermanentLoss.FullRangeIsDeeperAboveRange` | src/math/il.rs:44-48 | entered at or above the upper bound, a risen price gives a concentrated loss of exactly 0 and a negative full-range one |
| `ImpermanentLoss.IlIsUnitFree` | src/math/il.rs:51-79 | rescaling all four prices by one positive factor leaves the loss unchanged |
| `Metrics.ComputeMaxDrawdown` | src/math/metrics.rs:129-144 | the one-pass loop returns the deepest fall below the running peak over all prefixes |
| `Metrics.MaxDrawdownIsLeastChange` | src/math/metrics.rs:128-144 | on every non-negative curve that value is the minimum of (v_j - v_i)/v_i over pairs i <= j with positive v_i, attained by some pair (0 if no value is positive) |
| `Metrics.EquityCurve` | src/math/metrics.rs:59-66 | the curve starts at the open value and its rises over it are the given P&L values |
| `Signal.SignalMeaning` | src/strategy/signal.rs:30-64 | the signal fires if and only if the distance to the closer bound is negative (with the out-of-range switch) or at most the near-edge distance (with sufficient P&L) |
| `Signal.SignalReasons` | src/strategy/signal.rs:37-63 | which reason the decision carries, and that it holds exactly for low P&L and for a healthy position |
| `RebalancePlan.PlanContainsPrice` | src/execution/rebalance.rs:35-44 | for every i32 input whose own floor alignment fits, even with saturated or wrapped bounds, lower <= tick < upper |
| `RebalancePlan.PlanKeepsShape` | src/execution/rebalance.rs:28-44 | the lower bound is aligned, the upper one if and only if the width is or the plan is two spacings wide by repair; the plan has its width if and only if the price lies at least half of it above its grid point, or less than width - spacing, always so from two spacings on, and is two spacings wide otherwise |
| `RebalancePlan.WidthPreservedIff` | src/execution/rebalance.rs:15-17 | the promised preservation of the old width holds if and only if it is at least one spacing and that condition holds |
| `RebalancePlan.PlanIsCentred` | src/execution/rebalance.rs:28-44 | on chain ticks the saturating arithmetic is exact and the "lower above the tick" repair is never taken |
| `RebalancePlan.PlanPosition` | src/execution/rebalance.rs:25-34 | the lower bound is the grid point at or below the price less half the width |
| `RebalancePlan.ReplanIsIdempotent` | src/execution/rebalance.rs:18-44 | replanning a plan at the same tick returns the plan |
| `RebalancePlan.PlanThenHold` | src/strategy/signal.rs:37-63 | for every near-edge setting, also switched off: if width/2 >= trigger edge + spacing the signal holds right after a plan, with the stated clearance; the trigger edge is the near-edge distance, or -1 if that is lower and the out-of-range switch is on |
| `RebalancePlan.PlanAndSignalDoNotThrash` | src/strategy/signal.rs:37-63 | along every later path of ticks and P&L and for every near-edge setting, the number of further rebalances times (width/2 - spacing - trigger edge + 1) is at most the total tick movement |
| `Depth.RightWalk` | src/analytics/depth.rs:29-50 | bucket k of the ascending walk has the price of its middle tick and the anchor plus all deltas in (current, start], clamped at 0 |
| `Depth.LeftWalk` | src/analytics/depth.rs:52-70 | bucket -k of the descending walk has the anchor less all deltas in (start, current], clamped at 0 |
| `Depth.BuildDistribution` | src/analytics/depth.rs:19-76 | the 2n + 1 levels are buckets -n to n in order, for every tick list and spacing |
| `Depth.PricesAscend` | src/analytics/depth.rs:43-44 | with a positive spacing bucket prices strictly ascend |
| `Depth.DistributionIsActiveLiquidity` | src/analytics/depth.rs:15-18 | for every set of positions [lower, upper) and every agreeing tick list, all buckets on both walks report exactly the positions covering their start, and the clamp never fires, if and only if the pool's liquidity fits an i128 |
| `Depth.OversizedReportsNothing` | src/analytics/depth.rs:30-46 | a pool liquidity of 2^127 or more turns negative in the cast, and the current bucket reports 0 |
| `Depth.HalfMeaning` | src/analytics/depth.rs:42-43 | half a spacing is cut toward zero, for either sign |
| `Depth.MidBucketIff` | src/analytics/depth.rs:17-18 | on both walks, the reported liquidity of a bucket is the active liquidity at its middle, as documented, if and only if the deltas between start and middle cancel |
| `Depth.MidBucketMissed` | src/analytics/depth.rs:17-18 | a pool with spacing 64 and one position from tick 64 on: the current bucket reports 0 where its middle has 1 |
| `TickArrays.FetchTickArrays` | src/protocols/orca.rs:156-188 | the result is the existing accounts among the five starts, in order |
| `TickArrays.ExtractTickDeltas` | src/main.rs:181-197 | the result is the concatenation of each array's initialized ticks at start + i * spacing |
| `TickArrays.StartIsFloor` | src/protocols/orca.rs:148-151 | the array start is the multiple of the span at most one span below the tick, for negative ticks too |
| `TickArrays.WindowAgrees` | src/protocols/orca.rs:153-169 | for every valid pool, the flattened five arrays carry each tick's net liquidity exactly once, from two spans below to three spans above the centre start |
| `TickArrays.WindowIsEnough` | src/protocols/orca.rs:153-188 | up to 176 buckets per side every bucket built from the five arrays is the whole pool's answer |
| `TickArrays.JustOutsideIsMissed` | src/protocols/orca.rs:163-169 | from 177 buckets on a concrete pool, seen from the tick just below one span under 0, is reported wrongly, for every spacing |
| `TickArrays.WideSpansSuffice` | src/protocols/orca.rs:153-188 | when an array is longer than half the chain, any number of buckets is right from every on-chain tick |
| `TickArrays.FiveArraysReach` | src/protocols/orca.rs:153-188 | for every spacing: right for all valid pools and all on-chain ticks if and only if n <= 176, or 88 spacings exceed the largest tick |
| `Impact.WalkBuckets` | src/main.rs:1847-1878 | the loop returns the price and rest of the recursive walk over the ladder |
| `Impact.EstimateImpact` | src/main.rs:1843-1886 | the report is infinite exactly when something remains, otherwise the walked price and its percentage over the start |
| `Impact.InsideBucket` | src/main.rs:1864-1875 | a trade ending in a bucket ends between that step's start and end prices, so the infinity branch is unreachable, and moving there costs exactly what was left |
| `Impact.SizeIsCostPlusRest` | src/main.rs:1843-1886 | for every ladder and size >= 0: finite price between start and top, size equals the cost of reaching that price plus the rest, and a rest remains only at the top |
| `Impact.WalkInvertsCost` | src/main.rs:1847-1878 | spending exactly the cost of a reachable price ends at that price with nothing left |
| `Impact.LargerSizeEndsHigher` | src/main.rs:1847-1878 | a larger size never ends lower, and strictly higher while liquidity lasts |
| `Impact.ExhaustedIff` | src/main.rs:1880-1882 | infinity is reported if and only if the size exceeds the cost of the whole ladder |
| `ImpactLadder.WalkOfUseful` | src/main.rs:1847-1861 | dropping every bucket without liquidity or not above all earlier useful prices changes no result |
| `ImpactLadder.WalkMeaning` | src/main.rs:1847-1878 | for every ladder, start and size: the size is the sum of l (1/sqrt(start) - 1/sqrt(end)) start over the remaining buckets up to the final price plus the rest, and something remains if and only if the size exceeds the whole sum |
| `ImpactLadder.ReportMeaning` | src/main.rs:1843-1886 | infinity is reported if and only if the size exceeds that sum; otherwise the price up to which the sum is the size, at most the last useful bucket's, with its percentage above the start |
| `ImpactLadder.OneBucketFills` | src/main.rs:1864-1875 | liquidity 1100 from price 1 to 1.21 fills a size of 50 |
| `PoolImpact.ImpactOfPool` | src/main.rs:1816-1886 | for every valid pool, price and size the report from the five fetched arrays and 16 buckets per side is the report of the walk over the whole pool's active liquidity |
| `Ticks.PriceToTickBrackets` | src/backtest/mod.rs:113-118 | the result is a multiple of the spacing, and the price lies between its tick price and that of one spacing above |
| `Ticks.PriceToTickKeepsOrder` | src/backtest/mod.rs:113-118 | a higher price never has a lower aligned tick |
| `Ticks.TickPriceMeaning` | src/backtest/mod.rs:113-118 | tick prices are powers of 1.0001 |
| `DbReplay.SqrtQ64ToPriceIsExact` | src/math/sqrt_price.rs:17-23 | splitting the Q64.64 root into halves loses nothing: the price is (x / 2^64)^2 |
| `Backfill.SqrtPriceRoundTrip` | src/math/sqrt_price.rs:25-43 | for every price: non-positive gives 0, a root of 2^64 or more saturates at the largest u128, and any other comes back from its Q64.64 root not higher and with a root less than one unit 2^-64 below |
| `DayRollup.Flush` | src/backtest/db_replay.rs:136-155 | a completed day is reported from its own last observation |
| `DayRollup.RollRow` | src/backtest/db_replay.rs:135-165 | one row completes the growing day exactly on a change of date and carries the range flag |
| `DayRollup.DayStartsIff` | src/backtest/db_replay.rs:122-160 | a day starts exactly at the first row and wherever the date changes |
| `DayRollup.DaysAreMaximalRuns` | src/backtest/db_replay.rs:122-160 | days are the maximal runs of equal dates, covering all rows in order |
| `DayRollup.DayReport` | src/backtest/db_replay.rs:147-155 | days are numbered from 1; price, fees and IL are those of the run's last row, net is fees plus IL, and the day is in range if and only if some row of the run was |
| `DayRollup.DaysSplit` | src/backtest/db_replay.rs:224-242 | the single-pass days (completed ones plus the final flush) are the grouped days |
| `DayRollup.CountMeaning` | src/backtest/db_replay.rs:143-145 | the days-in-range figure is the number of reported days in range |
| `DbReplay.ObserveRow` | src/backtest/db_replay.rs:190-221 | IL, signal, realized IL and range reset of one row are those of the pure ledger step |
| `DbReplay.SettleRow` | src/backtest/db_replay.rs:167-221 | one row takes the ledger after i rows to the ledger after i + 1 |
| `DbReplay.ReplayRow` | src/backtest/db_replay.rs:129-222 | one iteration advances ledger and day grouping together |
| `DbReplay.ReplayRows` | src/backtest/db_replay.rs:129-222 | the loop ends with the ledger of all rows and their grouping |
| `DbReplay.RunDbBacktest` | src/backtest/db_replay.rs:83-270 | an empty stream is an error; otherwise the one-pass result equals the group-by-day reference: one row per day, price, fees and IL at the day's last row, in range if and only if some row was, totals from the last row |
| `ReplayDays.DayMeaning` | src/backtest/db_replay.rs:122-165 | for every replay and every row that ends a UTC day: the day is reported, numbered by the days before, with the row's price, all fees so far, the IL of all segments so far, net as their sum, and in range if and only if some row of the day arrived between the tick bounds then in force |
| `ReplayDays.TotalsMeaning` | src/backtest/db_replay.rs:224-270 | one reported day more than there are changes of day, totals after the last row, one rebalance less than segments, and an APY that times capital times days is 36500 times the fees |
| `ReplayDays.LastDayIsTotal` | src/backtest/db_replay.rs:224-270 | fees, IL and net of the last reported day are the result's totals |
| `ReplayRows.RowFees` | src/backtest/db_replay.rs:167-188 | every row but the first adds, if the pool has liquidity, the position's share of both counters' growth (mod 2^128), over 2^64 and the tokens' decimals, token A at the row's price; otherwise nothing |
| `ReplayRows.RowRebalancesIff` | src/backtest/db_replay.rs:196-221 | a row rebalances if and only if it is outside the tick bounds in force with the switch on, or within the near-edge distance of one (or outside) with the net P&L booked for that row at least the minimum |
| `ReplayRows.SegmentsMeaning` | src/backtest/db_replay.rs:208-221 | the segments: the given range first, each row moves the exit of the open one to its price, a rebalance appends the next |
| `ReplayRows.NextSegmentMeaning` | src/backtest/db_replay.rs:214-220 | a rebalance opens a range from price times the lower factor, at least 1e-9, to price times the upper factor |
| `ReplayRows.BoundsInForce` | src/backtest/db_replay.rs:97-110 | the bounds in force are those of the open segment |
| `ReplayRows.BoundsMeaning` | src/backtest/db_replay.rs:92-99 | each tick bound is on the grid, and the price bound lies between the prices of that tick and the next grid tick times 10^(decimals A - decimals B) |
| `ReplayRows.PriceMeaning` | src/backtest/db_replay.rs:131-131 | a row's price is its stored root over 2^64, squared, times 10^(decimals A - decimals B) |
| `ReplayRows.TenMeaning` | src/backtest/db_replay.rs:92-94 | the decimal scales are the powers of ten, in both directions |
| `ReplayFees.FeesSplit` | src/backtest/db_replay.rs:181-185 | fees are the token-A part plus the token-B part |
| `ReplayFees.TokenBFeesArePathIndependent` | src/backtest/db_replay.rs:167-188 | for every true total with steps below 2^128 behind the wrapping counter, token-B fees equal pos_L * total growth / 2^64 / 10^decimals_b |
| `ReplayFees.TokenAFeesAtOnePrice` | src/backtest/db_replay.rs:179-185 | while the price stands still, token-A fees equal pos_L * total growth / 2^64 / 10^decimals_a converted at that price |
| `ReplayFees.DroppingRowsChangesNothing` | src/backtest/db_replay.rs:70-72 | any selection of rows keeping the ends, with gaps below 2^128, earns the same token-B fees |
| `ReplayFees.FeesIgnoreTheRange` | src/backtest/db_replay.rs:167-188 | two runs that differ in range, rebalance settings or capital report the same days with the same fees and prices |
| `IlLedger.TotalIlBounds` | src/backtest/db_replay.rs:107-110 | IL summed over segments is never positive and never below minus the capital per segment |
| `IlLedger.SegmentIlMeaning` | src/math/il.rs:51-79 | IL in USD of a segment, times what holding is worth, is the capital times the position's shortfall, both valued at the exit price from the clamped roots of entry and exit |
| `IlLedger.NoIlOutsideDomain` | src/math/il.rs:51-63 | without a positive entry, a non-negative price or a proper range the reported IL is 0 |
| `ReplayLedger.IlIsSumOfSegments` | src/backtest/db_replay.rs:190-221 | reported IL is the sum of closed segments plus the open one; one segment more than rebalances, each starting where the last ended |
| `ReplayLedger.RealizedNeverIncreases` | src/backtest/db_replay.rs:208-213 | a rebalance books exactly the open segment, so the reset leaves reported IL unchanged, and realized IL never increases |
| `ReplayLedger.IlNeverPositive` | src/backtest/db_replay.rs:107-110 | total and realized IL are never positive after any number of rows |
| `ReplayScaling.ReplayIsHomogeneous` | src/research.rs:9-14 | capital and position liquidity times k with no minimum P&L: every day's fees, IL and net are times k; rebalances, in-range days and fee APY are unchanged |
| `ReplayScaling.LedgerScales` | src/backtest/db_replay.rs:178-221 | the ledger after any number of rows scales in every amount and keeps range and rebalance count |
| `ResearchArms.ActiveArmFiresIffOutOfRange` | src/research.rs:30-35 | with rebalancing on and the near edge off, every row of every replay rebalances if and only if its tick is outside the bounds in force |
| `ResearchArms.HoldArmIff` | src/research.rs:30-35 | with rebalancing off, no rebalance happens if and only if no row is a million ticks outside the initial range at a non-negative held P&L |
| `ResearchArms.HoldArmHolds` | src/research.rs:30-35 | with on-chain ticks and bounds the holding arm never rebalances |
| `ResearchArms.HoldArmCanRebalance` | src/research.rs:30-35 | a replay opened a million ticks or more above the price, with rebalancing off, rebalances on its first row |
| `ResearchArms.ZeroEdgeIsOffIff` | src/main.rs:391-394 | for every database replay and row: near-edge distance 0 acts as off, as its option says, if and only if the P&L is negative, the tick is strictly inside the bounds in force, or it is outside with the out-of-range switch on |
| `ResearchArms.ZeroEdgeRebalances` | src/main.rs:391-394 | a one-row replay at its lower bound, with distance 0, rebalances whether the switch is on or off |
| `ResearchArms.ResetContainsPrice` | src/backtest/db_replay.rs:214-220 | with factors around 1 and a price of at least 1e-9 the aligned tick of the price lies in the reset range |
| `ResearchArms.NoSecondRebalanceAtTheSameTick` | src/research.rs:261-278 | after a rebalance, a next row at the same aligned tick does not rebalance again |
| `Backfill.SynthesizeTicks` | src/backtest/backfill.rs:54-113 | no candles give no rows; otherwise a zero-growth baseline at the first candle and one row per candle with the saturating counter so far |
| `CandlePrices.RowsCarryCandles` | src/backtest/backfill.rs:63-111 | row j + 1 has candle j's time, the pool's liquidity, the grid tick whose bracket, times 10^(a - b), holds the close, and the root of close / 10^(a - b) cut to 2^-64, or saturated; row 0 the same of candle 0; no token-A growth |
| `CandlePrices.CloseRoundTrip` | src/math/sqrt_price.rs:17-43 | with the same decimals the replay reads each close that fits back, never higher, with a root less than one unit 2^-64 too low |
| `CandlePrices.SolAt150` | src/backtest/backfill.rs:68-84 | 9 and 6 decimals at a close of 150: tick and root are those of 0.15 |
| `Backfill.Accumulate` | src/backtest/backfill.rs:87-98 | the counter moves by the truncated, saturated growth of a candle with volume |
| `Backfill.SaturatesOnce` | src/backtest/backfill.rs:91-96 | saturating at each candle equals saturating the unbounded sum once |
| `Backfill.RoundingLoss` | src/backtest/backfill.rs:89-96 | truncation loses less than one counter unit per candle with volume |
| `Backfill.ReplayedFees` | src/backtest/backfill.rs:19-28 | replayed fees of synthesised rows are the value of the final counter |
| `Backfill.FeeRoundTrip` | src/backtest/backfill.rs:10-28 | replay earns at most the position's share S of pool fees, and without saturation at least S less one counter unit per candle with volume |
| `CandlePrices.ShortfallInUnits` | src/backtest/backfill.rs:10-28 | without saturation the shortfall is between 0 and one counter unit of the position's liquidity per candle with volume |
| `Backfill.BaselineAddsNoDay` | src/backtest/backfill.rs:63-79 | the replay reports exactly one day per run of equal candle dates |
| `SyntheticBacktest.SimulateDay` | src/backtest/mod.rs:150-217 | one day's state and report are those of the pure day step |
| `SyntheticBacktest.Simulate` | src/backtest/mod.rs:122-250 | for every price path the result lists one report per day with totals from the last day |
| `SyntheticDays.DayMeaning` | src/backtest/mod.rs:150-217 | every reported day: numbered from 1; in range if and only if the price lies in the open segment's range; then one daily fee (volume times share times bps / 10000) more; IL summed over all segments; net as fees plus IL |
| `SyntheticDays.PriceMeaning` | src/backtest/mod.rs:150-154 | the price of a day is the one before times the factor, at least 1e-6 |
| `SyntheticDays.SegmentsMeaning` | src/backtest/mod.rs:193-207 | the segments: the given range first, each day moves the exit of the open one, a rebalance opens one as wide around the price with its lower bound at least 1e-6 |
| `SyntheticDays.RebalanceIff` | src/backtest/mod.rs:177-193 | a day ends with a rebalance if and only if rebalancing is on and the aligned tick of its price is outside those of the open bounds, or on one of them with a reported net that is not negative |
| `SyntheticDays.TotalsMeaning` | src/backtest/mod.rs:219-250 | totals are the last day's (0 without days), one rebalance less than segments, and an APY that times capital times days is 36500 times the fees |
| `SyntheticBacktest.IlIsSumOfSegments` | src/backtest/mod.rs:169-207 | the IL reported on a day is the sum of closed segments plus the open one, whether or not the day ends with a reset |
| `SyntheticBacktest.SegmentsMatchRebalances` | src/backtest/mod.rs:193-207 | one segment more than rebalances, each starting where the last ended |
| `SyntheticBacktest.IlNeverPositive` | src/backtest/mod.rs:172-206 | on every price path reported IL is never positive and realized IL never increases |
| `SyntheticBacktest.FeesCountInRangeDays` | src/backtest/mod.rs:156-167 | cumulative fees are the daily fee once per in-range day so far |
| `SyntheticBacktest.RangeNeverWidens` | src/backtest/mod.rs:200-205 | over every path the range is proper and never wider than the initial one |
| `SyntheticBacktest.RecentringKeepsWidth` | src/backtest/mod.rs:200-205 | recentring contains the price and keeps the width if and only if the lower bound is not floored |
| `SyntheticBacktest.FiresIff` | src/backtest/mod.rs:144-193 | a rebalance happens if and only if the aligned tick is outside the aligned bounds, or equals one of them at a non-negative P&L |
| `SyntheticBacktest.InRangeRebalanceIff` | src/backtest/mod.rs:144-148 | an in-range day rebalances if and only if its P&L is not negative and it shares its aligned tick with a bound |
| `SyntheticBacktest.BoundaryDayRebalances` | src/backtest/mod.rs:144-193 | whenever the first price lands exactly on the lower bound and the daily fee covers the capital, that day is in range and rebalances |
| `SyntheticBacktest.HalvedPriceRebalances` | src/backtest/mod.rs:144-193 | concrete parameters and a path of one halved price that do so |

## Left out

- Impact.EstimateImpact: covers the walk over fetched buckets, with the size in raw token-B units, not the constant-liquidity fallback used when fetching fails.
- Backfill.FeeRoundTrip: for a candle whose timestamp the calendar library cannot represent the source falls back to the epoch; the model uses the timestamp itself, which fees do not depend on.
- Depth.BuildDistribution: sums are unbounded integers; an i128 overflow of a partial sum over a tick list in an unfavourable order is not modelled.
- Proposal.ApprovalSlot.Install: ids are unbounded, so the 64-bit counter never wraps.
- Proposal.ApprovalSlot.HandleApprove: describes the handler uninterrupted; its interleavings are in `WatchLoop`.
- RiskPersistence.DebounceRefinesEager: bot commands run between ticks and writes succeed; interleaved and failing writes are in `WatchLoop`, where row and memory may differ.
- WatchSafety.HaltLatch: hand edits of the row happen only while no process runs; an edit made under a running process can be overwritten by its next write.
- ReplayScaling.ReplayIsHomogeneous: the scaled liquidity must be an integer; the sweep truncates it.
- ResearchArms.ResetContainsPrice: about the aligned tick of the replayed price; the truncation of synthesised square roots can put a candle's own tick one spacing higher.
- DbReplay.RunDbBacktest: the loop body is split into several methods and its locals are grouped in records; `fee_rate_bps` and the parameter snapshot are only copied through and are not modelled.
- Floating-point rounding, NaN and infinities other than those named above.
- RPC, WebSocket and Telegram sessions, SQL text and connection handling, Prometheus, command line, printing, file cache.
- The shadow gate's query, entered as a startup flag, and the pnl, shadow-rebalance and skip rows, which no decision reads.
- The external Whirlpool library's amounts and tick conversions; `PoolUpdate` takes their results as inputs.
- The random numbers of the synthetic engine: the price factors are arbitrary.
- Sharpe, Sortino, Calmar, volatility, greeks, `estimate_impact`: closed formulas.
- Parsing of accounts, Drift margin bytes, URL redaction and authorization checks.
