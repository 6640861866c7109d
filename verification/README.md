# Formal model of the trading engine's core

A Dafny model of the in-memory state machines and the exact arithmetic of the trading engine, with proofs
of what they keep over whole runs. Floating-point numbers are real numbers, configuration is a record, and
clocks, tokens, payouts and the fate of network calls are parameters or steps. `dafny verify dfyconfig.toml`
checks everything.

Code that changes state step by step is a class or a method with loops, proved equal to a function of the old
state; the properties are then proved about that function, over every run. Code made of expressions is modelled
as functions. Where a promise is false on some inputs, a lemma gives a concrete input and another the exact
condition under which it holds.

| file | subject |
|---|---|
| PendingLoss, Settlement, RiskManager | the debt ledger and its waterfall, settlement, clusters; accounting over every run |
| RecoverySizing, StakePipeline, RecoveryCycle | the sizing pipeline, its bounds, and one win that clears the debt end to end |
| PullbackStake | the pullback stake in whole cents and its solvency |
| LeaseStore, RecoveryClaim, OrderClaim | leases on a shared store under every interleaving, failure and crash |
| PowerSeries, FractionalDiff | binomial weights, Vandermonde's identity, the composition law of fractional differencing |
| OrganicDirection, OrganicMirror | ten indicators and two decision functions, and their mirror symmetry |
| HistoryPaging | the paged download against one query of a fixed history |
| BitMask, RingBuffer | both circular buffers against a log of ticks |
| CandleStream | candle buffers against the collapsed input |
| LiveCalibration | rolling calibration error and Brier score |
| LossTracker | consecutive losses against the history |
| QuoteGuard, MarketTrigger, ErrorReversal, FlipChain | when independent direction flips agree |
| Backtester | one-pass accounting against definitions over all trades |
| Numeric, Trading | rounding and named products; notions shared by several components |

Findings where the code does not do what its documentation or its parts suggest:

- Beginning a cluster before the previous one is empty lets a contract be booked twice (`Settlement.BeginIsSafe`,
  `Settlement.EarlyBeginBooksTwice`).
- A full cluster forgets other open contracts, whose settlements are then ignored (`Settlement.FullClusterDropsOthers`,
  `Settlement.SecondContractIsLost`).
- Binding a bought contract extends the local reservation by 900 seconds but not the key in the shared store
  (`RecoveryClaim.ReservationEndsWithLease`, `RecoveryClaim.BoundClaimsCanOverlap`).
- Without a minimum share of the bankroll the lift to the broker's minimum can exceed the safe cap (`StakePipeline.CapIsExact`,
  with the input in `StakePipeline.MinimumStakeOverridesCap`).
- Orders below 1e-12 are treated as zero, which breaks the composition law for a few pairs of orders (`FractionalDiff.CompositionLaw`,
  `FractionalDiff.CompositionCounterexample`).
- Flips can contradict each other as soon as an even chance passes the quote test (`FlipChain.AgreementIsExact`,
  `FlipChain.GenerousPayoutDisagrees`).
- The anti-trend lock compares the probability of a rise with the same numbers for both sides. Proposals the probability
  favours are treated alike all the same (`FlipChain.FavouredMirrors`), but a CALL against it is turned where the mirrored
  PUT is not (`FlipChain.ChainMirrors`, `FlipChain.ChainIsLopsided`).
- The single-win cap mode written into the metrics by one sizing call is never reset by a later one, which then gets the
  higher cap (`StakePipeline.LeftoverCapMode`, `StakePipeline.LeftoverCapIsHigher`).
- A missing `min_edge_execute` reads as 0.0 for a flip and as 0.01 for the market trigger, so a quote can pass one and
  fail the other (`MarketTrigger.MissingFloor`, `MarketTrigger.FloorsSplit`).
- The local table of order keys drops keys of older candles whatever their symbol and period, so such a candle can be
  asked for twice (`OrderClaim.ForgottenByNewer`, `OrderClaim.OlderCandleAskedTwice`).
- The 64-bit cursor of the native buffer wraps in an optimised build, after which its count restarts (`RingBuffer.BuffersAgree`,
  `RingBuffer.WrappedBufferLooksEmpty`).
- Gross loss adds the size of every losing result, so a negative stake breaks the balance of profit (`Backtester.ReportedProfitIsNet`,
  `Backtester.NegativeStakeUnbalances`).

## Model

| member | source | states |
|---|---|---|
| `PendingLoss.WaterfallTotal` | app/src/domain/risk/risk_recovery_state.py:58-70 | a win takes the total debt to max(0, total - profit) and leaves no entry negative |
| `PendingLoss.WaterfallInOrder` | app/src/domain/risk/risk_recovery_state.py:58-70 | closed form of every entry: entry i keeps what the profit leaves after all entries before it, so debts are paid in insertion order |
| `PendingLoss.WaterfallUnique` | app/src/domain/risk/risk_recovery_state.py:58-70 | paying off debts keeps one entry a symbol |
| `PendingLoss.WinsTotal` | app/src/domain/risk/risk_recovery_state.py:58-70 | n wins of one size take the total to max(0, total - n * profit) |
| `PendingLoss.ResidualEffect` | app/src/domain/risk/executed_stake_reconciliation.py:89-106 | the payoff residual moves the total by at most its own size, touches one symbol only, and leaves a cleared ledger cleared |
| `Settlement.PayoffResidual` | app/src/domain/risk/executed_stake_reconciliation.py:76-86 | the residual never exceeds ten cents in size |
| `Settlement.LossAddsStake` | app/src/domain/risk/executed_stake_reconciliation.py:137-146 | a losing settlement adds exactly the booked stake to its own symbol and nothing to any other |
| `Settlement.WinPaysDebt` | app/src/domain/risk/executed_stake_reconciliation.py:147-158 | a winning settlement takes the debt to max(0, total - credited profit) up to ten cents, clears what it covers, and leaves no entry negative |
| `Settlement.CounterFollowsDebt` | app/src/domain/risk/risk_recovery_state.py:81-127 | after a cluster the loss counter is 0 if and only if the cluster did not lose and no debt, or no loss, was left; it grows by at most one, and at most the dust limit is forgiven |
| `Settlement.StepKeepsInv` | app/src/domain/risk/executed_stake_reconciliation.py:119-166 | every step (open, settle on time, late or again, begin, reset, prune, abandon, dust) keeps the invariant: a booked contract is never active and, while still mapped, is in the cluster results |
| `Settlement.RunAccounting` | app/src/domain/risk/executed_stake_reconciliation.py:119-135 | over every admissible run each contract is booked at most once, session profit is the sum since the last reset, the peak is the largest total ever reached (a reset does not lower it), each rolling window is the newest 100 outcomes, and no debt is negative |
| `Settlement.BeginKeepsInv` | app/src/domain/risk/risk_manager.py:241-244 | beginning a cluster keeps the invariant if and only if no result is left |
| `Settlement.BeginIsSafe` | app/src/domain/risk/risk_manager.py:241-244 | beginning a cluster leaves every continuation free of double bookings if and only if no result of the previous cluster is left |
| `Settlement.EarlyBeginBooksTwice` | app/src/domain/risk/risk_manager.py:241-244 | a concrete run in which a cluster begun too early books one contract twice |
| `Settlement.FullClusterDropsOthers` | app/src/domain/risk/executed_stake_reconciliation.py:160-166 | a booking ends the tracking of another open contract if and only if it fills the cluster, so that contract's own settlement is then ignored |
| `Settlement.SecondContractIsLost` | app/src/domain/risk/executed_stake_reconciliation.py:162-166 | a run from the start in which two contracts of a cluster begun for one settle and only the first is booked |
| `Settlement.StreakPaysDebt` | app/src/domain/risk/executed_stake_reconciliation.py:147-158 | over any run of booked wins credited with at least d > 0.10, mixed with steps that book nothing, each win lowers the debt by at least d - 0.10 |
| `Settlement.StreakClearsDebt` | app/src/domain/risk/executed_stake_reconciliation.py:147-158 | such a run clears every entry within ceil(total / (d - 0.10)) booked wins |
| `RiskManagement.RiskManager.RegisterResult` | app/src/domain/risk/risk_manager.py:253-270 | books a settlement once and finalises a complete cluster: the whole new state is the specified step, and the invariant is kept |
| `RiskManagement.RiskManager.Register` | app/src/domain/risk/executed_stake_reconciliation.py:129-160 | the booking before the completion test, field by field as specified |
| `RiskManagement.RiskManager.CloseIfComplete` | app/src/domain/risk/executed_stake_reconciliation.py:162-166 | finalises when the cluster is full or nothing is left open, otherwise changes nothing |
| `RiskManagement.RiskManager.ApplyWinToPendingLoss` | app/src/domain/risk/risk_recovery_state.py:58-70 | the in-place loop pays the ledger exactly as the waterfall does |
| `RiskManagement.RiskManager.ApplyFractionalResidual` | app/src/domain/risk/executed_stake_reconciliation.py:89-106 | the in-place correction of one symbol's debt is the specified one |
| `RiskManagement.RiskManager.ClearDustPendingLoss` | app/src/domain/risk/risk_recovery_state.py:30-55 | clears debt, loss counter and last loss stake exactly when the total is positive and within the dust limit |
| `RiskManagement.RiskManager.ApplyClusterProfitToRecovery` | app/src/domain/risk/risk_recovery_state.py:81-127 | loss counter, dust and reset flag after a cluster, as specified |
| `RiskManagement.RiskManager.FinalizeCluster` | app/src/domain/risk/risk_cluster.py:6-14 | cluster profit goes to the recovery state and all cluster tracking is emptied |
| `RiskManagement.RiskManager.BeginCluster` | app/src/domain/risk/risk_manager.py:241-244 | the invariant survives if and only if the results were empty |
| `RiskManagement.RiskManager.ResetSession` | app/src/domain/risk/risk_manager.py:97-105 | profit, unit, counter and debt start again, the peak stays |
| `RiskManagement.RiskManager.RecordContractStake` | app/src/domain/risk/risk_manager.py:246-251 | executed and planned stake of one contract are recorded |
| `RiskManagement.RiskManager.RegisterConfirmed` | app/src/application/services/orchestrator/execution_contract_registration.py:8-27 | a confirmed purchase is tracked with its stake once, not after its settlement and not twice, and the invariant is kept |
| `RiskManagement.RiskManager.AttachHedge` | app/src/application/services/micro_hedge_monitor.py:119-125 | a hedge order is tracked without a planned stake, and the invariant is kept |
| `RiskManagement.RiskManager.PruneOrphans` | app/src/application/services/orchestrator/settlement_utils.py:65-83 | contracts the system no longer knows lose their tracking and their results, and the invariant is kept |
| `RiskManagement.RiskManager.AbandonActive` | app/src/application/services/orchestrator/execution_settlement.py:43 | the open list is emptied while contracts stay mapped, and the invariant is kept |
| `RiskManagement.RiskManager.RecordTradeOutcome` | app/src/domain/risk/risk_manager.py:107-113 | the rolling window keeps the newest 100 outcomes of the symbol |
| `RecoverySizing.CoverWins` | app/src/domain/risk/consensus_stake_penalty.py:111-172 | with one amortisation cycle the cover stake times the payout is the debt times the cover multiple, at least the debt |
| `RecoverySizing.RecoveryStakeCovers` | app/src/domain/risk/dlambert_sizing.py:129-173 | with material debt, cover enabled, one cycle, no downgrade, positive f* and cover below the cap, the recovery stake wins at least the debt and exceeds the cap by less than a cent |
| `RecoverySizing.InfeasibilityIsExact` | app/src/domain/risk/soft_recovery_policy.py:47-64 | the test is false if and only if the maximum number of wins at the cap stake, run through the waterfall, zeroes every ledger of the required total |
| `RecoverySizing.CoveredStake` | app/src/domain/risk/consensus_stake_penalty.py:111-172 | material debt with cover enabled is covered within its cap, and a downgrade limits the cover to the neutral unit |
| `RecoverySizing.CoveredShare` | app/src/domain/risk/consensus_stake_penalty.py:111-172 | without damping or downgrade and with room below the cap, a win pays exactly one cycle's share of the debt |
| `RecoverySizing.ExploredStake` | app/src/domain/risk/consensus_stake_penalty.py:87-110 | any other debt is explored with at most the neutral unit within the cap, marked when cover is switched off |
| `RecoverySizing.ClearedBy` | app/src/domain/risk/risk_recovery_state.py:58-70 | n wins of one size clear every ledger of a total if and only if together they reach it |
| `RecoverySizing.SmallAccountFloor` | app/src/domain/risk/soft_recovery_policy.py:108-121 | the small-account rule never raises the cap |
| `RecoverySizing.LinearPct` | app/src/domain/risk/consensus_stake_penalty.py:175-196 | the share by loss count never exceeds the configured safe share |
| `RecoverySizing.AmortCycles` | app/src/domain/risk/soft_recovery_policy.py:36-44 | there is always at least one amortisation cycle |
| `StakePipeline.StakeBound` | app/src/domain/risk/risk_stake_calc.py:86-296 | for every Kelly fraction, session and metrics: the stake is between 0 and the safe cap, never above the absolute maximum, and outside the micro-account tail at most the configured share of the bankroll |
| `StakePipeline.LastStagesBound` | app/src/domain/risk/stake_sizing.py:238-266 | the last two stages alone already enforce these bounds, despite the lifts before them |
| `StakePipeline.SafeCapShare` | app/src/domain/risk/consensus_stake_penalty.py:175-196 | the safe cap is at most the configured share of the bankroll except in the micro-account tail |
| `StakePipeline.CapFinal` | app/src/domain/risk/risk_stake_calc_helpers.py:97-133 | the final cap never raises a stake and never exceeds the safe cap |
| `StakePipeline.SignalCaps` | app/src/domain/risk/risk_stake_calc_helpers.py:235-264 | the soft caps never raise a stake |
| `StakePipeline.WeakExploreCap` | app/src/domain/risk/risk_stake_calc_helpers.py:32-47 | the exploration cap never raises a stake |
| `StakePipeline.CapIsKept` | app/src/domain/risk/risk_stake_calc.py:86-296 | no request, session or metrics makes the pipeline exceed a positive safe cap when the minimum share is positive, the entry provisional, or the cap leaves room for the minimum or the maximum stake |
| `StakePipeline.CapIsBroken` | app/src/domain/risk/risk_stake_calc.py:86-296 | a wanted entry is always placed, and where the guard fails, at the minimum above the cap |
| `StakePipeline.CapIsExact` | app/src/domain/risk/risk_stake_calc.py:86-296 | with any metrics that are not skipped, or none, every request respects the cap if and only if the cap in force leaves room for the lift both without a Kelly fraction and with one |
| `StakePipeline.OutcomeCap` | app/src/domain/risk/risk_stake_calc_helpers.py:97-133 | the cap of a placed stake from the inputs alone: that of a single win when this sizing covers with one or the metrics say so, else the share by loss count |
| `StakePipeline.LeftoverCapMode` | app/src/domain/risk/consensus_stake_penalty.py:125-129 | a cap mode left in the metrics leaves the cap as a fresh record would give it if and only if the sizing enters the mode itself or the two caps are equal |
| `StakePipeline.LeftoverCapIsHigher` | app/src/domain/risk/risk_stake_calc_helpers.py:97-133 | after three losses on a balance of 200 the cap of a placed stake is 7 with a leftover mode and 4 without |
| `StakePipeline.MinimumStakeOverridesCap` | app/src/domain/risk/stake_sizing.py:216-235 | a concrete pipeline input with metrics on a balance of 20: the cap is 0.70 and the placed stake 1 |
| `StakePipeline.PipelineCoversDebt` | app/src/domain/risk/risk_stake_calc.py:180-244 | with nothing later cutting in, the placed stake times the payout is at least the debt and stays within the cover cap |
| `StakePipeline.CalculateStake` | app/src/domain/risk/risk_stake_calc.py:86-296 | the staged method returns the specified stake, changes the manager by the dust step alone, and keeps its invariant |
| `StakePipeline.SizeStake` | app/src/domain/risk/risk_stake_calc.py:98-296 | the stages after the dust write the metrics and return the specified stake |
| `StakePipeline.FinishStake` | app/src/domain/risk/risk_stake_calc.py:192-244 | the stages after the choice between Kelly and recovery compute the specified stake |
| `RecoveryCycle.WinClosesCycle` | app/src/domain/risk/risk_recovery_state.py:81-127 | a one-contract cluster won with at least the debt empties every entry and sets the loss counter to 0 |
| `RecoveryCycle.OneWinClearsDebt` | app/src/domain/risk/dlambert_sizing.py:129-173 | end to end: the pipeline's stake, bought and won at the quoted payout as its own cluster, clears the debt and the counter |
| `PullbackStake.StakeBounds` | app/src/domain/risk/pullback_stake.py:18-44 | a stake is 0 or whole cents between the minimum and 5% of the balance |
| `PullbackStake.LosingStreakSolvency` | app/src/domain/risk/pullback_stake.py:18-44 | after any k losing orders at least 0.95^k of the balance remains |
| `PullbackStake.StepsAreLeast` | app/src/domain/risk/pullback_stake.py:8-15 | the step count is the least one whose share fits the cap |
| `PullbackStake.ShareIsCovered` | app/src/domain/risk/pullback_stake.py:31-44 | sized with its own step count, an order covers its share of the loss up to the slack |
| `PullbackStake.CeilWithSlackBounds` | app/src/domain/risk/pullback_stake.py:31-44 | rounding up to cents stays within a whole-cent bound if and only if the target does up to the slack |
| `LeaseStore.Exclusive` | app/src/application/services/pullback_recovery_claim.py:63-69 | two held tokens of one key cannot both be inside their 900 seconds |
| `LeaseStore.SetKeeps` | app/src/application/services/pullback_recovery_claim.py:66 | a set that must not overwrite succeeds only if no held token of that key is inside its lease |
| `LeaseStore.DeleteOnlyOwn` | app/src/application/services/pullback_recovery_claim.py:91-94 | compare-and-delete never removes a key written with another token |
| `RecoveryClaim.NextKeeps` | app/src/application/services/pullback_recovery_claim.py:54-96 | every step of every process, including failures after effect and crashes, keeps the protocol invariant |
| `RecoveryClaim.AtMostOneLiveClaim` | app/src/application/services/pullback_recovery_claim.py:54-96 | in every interleaving at most one unreleased claim is inside its lease, and no table ever holds more than one claim |
| `RecoveryClaim.OnlyOwnerRemoves` | app/src/application/services/pullback_recovery_claim.py:82-96 | a live key is removed only by the process that wrote it while it releases that claim |
| `RecoveryClaim.ReservationEndsWithLease` | app/src/application/services/pullback_recovery_claim.py:74-79 | another process gets the key while the newest claim is still held if and only if that claim has outlived its 900 seconds |
| `RecoveryClaim.BoundClaimsCanOverlap` | app/src/application/services/pullback_recovery_claim.py:74-79 | a concrete run in which binding outlives the lease and two processes hold a claim at once |
| `RecoveryClaim.LossReservedOnce` | app/src/application/services/pullback_recovery_claim.py:45-61 | while a claim lives its amount is taken off the loss on offer and no second claim is asked for; without one the loss is on offer only when no contract is open |
| `OrderClaim.NextKeeps` | app/src/application/services/indicator_order_claims.py:57-135 | every step of every attempt keeps the protocol invariant |
| `OrderClaim.AtMostOneHolder` | app/src/application/services/indicator_order_claims.py:79-98 | in every interleaving at most one attempt holds a given order key inside its lease |
| `OrderClaim.OnlyOwnerRemoves` | app/src/application/services/indicator_order_claims.py:114-135 | an order key is removed only by the release of the attempt that set it |
| `OrderClaim.BeginsWhenUnclaimed` | app/src/application/services/indicator_order_claims.py:14-36 | an attempt is opened if and only if its key names a candle and is new to the table of the process |
| `OrderClaim.OneAttemptOnNewestCandle` | app/src/application/services/indicator_order_claims.py:28-36 | in every interleaving a process has at most one live attempt on a key of the newest candle it has asked for, and that key is in its table |
| `OrderClaim.ForgottenByNewer` | app/src/application/services/indicator_order_claims.py:32-36 | while its only attempt lives, a key leaves the table if and only if a newer candle of any symbol and period is asked for |
| `OrderClaim.OlderCandleAskedTwice` | app/src/application/services/indicator_order_claims.py:32 | a run in which a newer candle of another symbol and period makes the table forget a key that is then asked for again |
| `OrderClaim.GrantedWhenFree` | app/src/application/services/indicator_order_claims.py:79-82 | an attempt is granted its key if and only if no unexpired key stands in its way, and then no other holder is inside its lease |
| `PowerSeries.ConvAssociative` | app/src/domain/math/fractional_diff.py:58-59 | truncated convolution is associative |
| `PowerSeries.ConvLeibniz` | app/src/domain/math/fractional_diff.py:58-59 | weighting terms by their index is a derivation of the convolution |
| `FractionalDiff.GetFractionalWeights` | app/src/domain/math/fractional_diff.py:14-35 | the loop with its early exit returns the binomial weights up to the first one below the threshold |
| `FractionalDiff.Kept` | app/src/domain/math/fractional_diff.py:28-35 | every kept weight reaches the threshold and the first dropped one does not |
| `FractionalDiff.FracDiffCausal` | app/src/domain/math/fractional_diff.py:38-65 | the operation is the causal convolution with those weights, the identity for orders below 1e-12 |
| `FractionalDiff.Vandermonde` | app/src/domain/math/fractional_diff.py:28-33 | the weights of two orders convolve to the weights of their sum |
| `FractionalDiff.CompositionLaw` | app/src/domain/math/fractional_diff.py:53-65 | with threshold 0, differencing by d2 then d1 equals differencing by d1 + d2 on every series if and only if treating tiny orders as zero does not change the sum |
| `FractionalDiff.CompositionCounterexample` | app/src/domain/math/fractional_diff.py:53-54 | two orders of 6e-13 for which the law fails |
| `FractionalDiff.RoundTrip` | app/src/domain/math/fractional_diff.py:53-65 | with threshold 0, order d followed by -d gives back every series, for every d |
| `FractionalDiff.OrderOneIsFirstDifference` | app/src/domain/math/fractional_diff.py:53-65 | order 1 is the ordinary first difference |
| `FractionalDiff.SmallWeightBounds` | app/src/domain/math/fractional_diff.py:28-33 | a weight below 1 in size occurs only for orders above -1 and beyond half the order |
| `FractionalDiff.WeightsShrink` | app/src/domain/math/fractional_diff.py:28-33 | from there on weights never grow in size |
| `FractionalDiff.DroppedWeightsAreSmall` | app/src/domain/math/fractional_diff.py:31-32 | every dropped weight, not only the first, is below the threshold |
| `FractionalDiff.TruncationError` | app/src/domain/math/fractional_diff.py:53-65 | cutting weights moves term t by at most (t + 1) times the threshold times the largest input |
| `FractionalDiff.Causality` | app/src/domain/math/fractional_diff.py:58-59 | later values never change earlier results, for every order and threshold |
| `OrganicDirection.CalcEma` | app/src/domain/analytics/organic_direction.py:9-15 | the accumulating loop is the recurrence of the average |
| `OrganicDirection.CalcAtr` | app/src/domain/analytics/organic_direction.py:18-26 | mean true range of the last 14 bars, with the short-list fallback |
| `OrganicDirection.CalcRsi` | app/src/domain/analytics/organic_direction.py:29-43 | relative strength from summed gains and losses, with the zero-loss cases |
| `OrganicDirection.CalcStochastic` | app/src/domain/analytics/organic_direction.py:60-73 | %K and its smoothing over the sliding windows |
| `OrganicDirection.CalcMacdHistogram` | app/src/domain/analytics/organic_direction.py:76-85 | histogram of the two averages and the signal line |
| `OrganicDirection.CalcAdx` | app/src/domain/analytics/organic_direction.py:99-122 | directional index from the accumulated movements |
| `OrganicDirection.CalcSessionBands` | app/src/domain/analytics/organic_direction.py:125-144 | range-weighted mean and bands over the last 72 bars |
| `OrganicDirection.ResolveOrganicDirection` | app/src/domain/analytics/organic_direction.py:207-266 | the whole decision, from candles to side and reason |
| `OrganicMirror.ReadingsReflected` | app/src/domain/analytics/organic_direction.py:207-266 | under p -> C - p every reading becomes its predicted mirror: RSI and stochastic 100 - x, %B 1 - x, CCI, MACD and slope negated, ATR and ADX unchanged, bands exchanged |
| `OrganicMirror.RsiReflected` | app/src/domain/analytics/organic_direction.py:29-43 | RSI turns into 100 - RSI |
| `OrganicMirror.CciReflected` | app/src/domain/analytics/organic_direction.py:88-96 | CCI changes sign |
| `OrganicMirror.PctBReflected` | app/src/domain/analytics/organic_direction.py:46-57 | %B turns into 1 - %B, for any square root function |
| `OrganicMirror.AdxReflected` | app/src/domain/analytics/organic_direction.py:99-122 | ADX is unchanged |
| `OrganicMirror.DecisionMirrors` | app/src/domain/analytics/organic_direction.py:147-204 | the two hand-written decision functions are mirror images if and only if the sign of a session band does not decide |
| `OrganicMirror.MirrorSymmetry` | app/src/domain/analytics/organic_direction.py:147-266 | for every candle list, reflecting candles and swapping sides mirrors the verdict, reason included, if and only if that sign does not decide |
| `OrganicMirror.PricesMirror` | app/src/domain/analytics/organic_direction.py:147-266 | for every list of candles with positive prices, any c above them and any root that is not negative, the verdict is mirrored without exception |
| `OrganicMirror.WeightedMeanWithin` | app/src/domain/analytics/organic_direction.py:125-144 | the session mean of positive prices below c lies strictly between 0 and c |
| `HistoryPaging.MergeCandlePages` | app/src/infrastructure/handlers/history_fetch.py:69-78 | the dictionary loop computes the specified merge |
| `HistoryPaging.MergeIsSortedUnion` | app/src/infrastructure/handlers/history_fetch.py:69-78 | the merge of any two pages is strictly sorted and holds exactly the last candle of every epoch |
| `HistoryPaging.MergeOfAdjacent` | app/src/infrastructure/handlers/history_fetch.py:69-78 | merging an older adjacent page puts the two parts of the history together |
| `HistoryPaging.RequestPage` | app/src/infrastructure/handlers/history_fetch.py:117-168 | the retry loop ends a page as specified |
| `HistoryPaging.PageArrivesWhen` | app/src/infrastructure/handlers/history_fetch.py:117-168 | a page arrives if and only if some attempt delivers after nothing but retried failures |
| `HistoryPaging.FetchPaginated` | app/src/infrastructure/handlers/history_fetch.py:93-195 | from any suffix in hand, the paging loop terminates (goal minus length) and equals the specified download |
| `HistoryPaging.FetchOlder` | app/src/infrastructure/handlers/history_fetch.py:106-181 | the loop itself, page by page |
| `HistoryPaging.CleanFetchIsOneQuery` | app/src/infrastructure/handlers/history_fetch.py:93-195 | when every page arrives, the download is one query for the last min(goal, size) candles |
| `HistoryPaging.ResumedFetchIsOneQuery` | app/src/infrastructure/handlers/history_fetch.py:93-100 | the same when resumed from any suffix |
| `HistoryPaging.FetchReturnsSuffix` | app/src/infrastructure/handlers/history_fetch.py:160-168 | whatever fails, a returned result is a suffix of the history and no shorter than what was in hand |
| `HistoryPaging.ShortOnlyAfterFailure` | app/src/infrastructure/handlers/history_fetch.py:121-168 | less than was asked for and exists comes back only after a refused page, an error only after persistent timeouts |
| `BitMask.BitTest` | app/src/infrastructure/handlers/disruptor_ring_buffer.py:13 | n & (n - 1) is zero if and only if n is a power of two |
| `BitMask.MaskIsRemainder` | app/src/infrastructure/handlers/disruptor_ring_buffer.py:39 | masking with 2^k - 1 is the remainder modulo 2^k |
| `RingBuffer.PushHolds` | app/src/infrastructure/handlers/disruptor_ring_buffer.py:37-44 | writing the next entry keeps every other entry that is still held |
| `RingBuffer.DisruptorRingBuffer.constructor` | app/src/infrastructure/handlers/disruptor_ring_buffer.py:16-20 | an accepted capacity gives an empty buffer of that size |
| `RingBuffer.DisruptorRingBuffer.Create` | app/src/infrastructure/handlers/disruptor_ring_buffer.py:11-20 | a capacity is refused if and only if it is not a positive power of two |
| `RingBuffer.DisruptorRingBuffer.Count` | app/src/infrastructure/handlers/disruptor_ring_buffer.py:28-30 | the count is min(pushes since clear, capacity) |
| `RingBuffer.DisruptorRingBuffer.PushTick` | app/src/infrastructure/handlers/disruptor_ring_buffer.py:37-44 | the log grows by the tick and the old cursor is returned |
| `RingBuffer.DisruptorRingBuffer.LatestTick` | app/src/infrastructure/handlers/disruptor_ring_buffer.py:46-51 | the last entry of the log, or nothing |
| `RingBuffer.DisruptorRingBuffer.LatestWindow` | app/src/infrastructure/handlers/disruptor_ring_buffer.py:53-61 | the last min(n, count) pushed pairs in order, for every n |
| `RingBuffer.DisruptorRingBuffer.GetPricesArray` | app/src/infrastructure/handlers/disruptor_ring_buffer.py:63-71 | the price column of that window |
| `RingBuffer.DisruptorRingBuffer.Clear` | app/src/infrastructure/handlers/disruptor_ring_buffer.py:73-77 | the log is empty again |
| `RingBuffer.RustRingBuffer.constructor` | native/aether_core/src/lib.rs:23-29 | an accepted capacity gives an empty buffer |
| `RingBuffer.RustRingBuffer.Create` | native/aether_core/src/lib.rs:17-30 | a capacity is refused if and only if it is not a positive power of two |
| `RingBuffer.RustRingBuffer.PushTick` | native/aether_core/src/lib.rs:32-39 | the slot is right although the 64-bit cursor wraps around |
| `RingBuffer.RustRingBuffer.Count` | native/aether_core/src/lib.rs:41-43 | min(wrapped cursor, capacity) |
| `RingBuffer.RustRingBuffer.LatestTick` | native/aether_core/src/lib.rs:45-52 | the last entry of the log, except when the cursor has just wrapped to zero |
| `RingBuffer.RustRingBuffer.Clear` | native/aether_core/src/lib.rs:54-58 | the log is empty again |
| `RingBuffer.WrappedBufferLooksEmpty` | native/aether_core/src/lib.rs:41-52 | after exactly 2^64 pushes the Rust buffer reports nothing while the Python buffer is full |
| `RingBuffer.BuffersAgree` | native/aether_core/src/lib.rs:41-52 | count and latest tick agree with the Python buffer if and only if fewer than 2^64 pushes were made or the wrapped cursor is at least the capacity |
| `RingBuffer.Replay` | app/src/infrastructure/handlers/disruptor_ring_buffer.py:37-77 | both buffers driven by the same pushes and clears hold the same log |
| `RingBuffer.LogSinceClear` | app/src/infrastructure/handlers/disruptor_ring_buffer.py:73-77 | the log is what was pushed since the last clear |
| `CandleStream.CandleStore.ApplyCandleUpdate` | app/src/infrastructure/handlers/stream_candle_apply.py:33-55 | new history, last epoch and reported event of the symbol; all other symbols are untouched |
| `CandleStream.CandleStore.Feed` | app/src/infrastructure/handlers/stream_candle_apply.py:33-55 | over a run of all symbols each buffer is the newest part of its collapsed input, and the closed epochs are all but the open one |
| `CandleStream.WindowOnCollapsedInput` | app/src/infrastructure/handlers/stream_candle_apply.py:33-55 | for one symbol and every limit: buffer, last epoch and closed epochs in terms of the input with runs of equal epoch collapsed |
| `CandleStream.RunEndsSnoc` | app/src/infrastructure/handlers/stream_candle_apply.py:42-44 | replacing the open candle is how a run collapses to its last candle |
| `CandleStream.UpdateContinuesRun` | app/src/infrastructure/handlers/stream_candle_apply.py:42-44 | for a positive limit an update is reported if and only if the candle has the epoch of the one before |
| `LiveCalibration.OneBin` | app/src/application/services/live_signal_metrics.py:46-49 | every probability in [0, 1] lies in exactly one bin |
| `LiveCalibration.BinsPartition` | app/src/application/services/live_signal_metrics.py:46-53 | the bins hold every sample exactly once |
| `LiveCalibration.CalibrationError` | app/src/application/services/live_signal_metrics.py:37-54 | the two nested loops compute the specified error |
| `LiveCalibration.EceBounds` | app/src/application/services/live_signal_metrics.py:37-54 | the error lies in [0, 1], is at least the distance of mean probability and mean label and at most the mean absolute error |
| `LiveCalibration.EceBelowBrier` | app/src/application/services/live_signal_metrics.py:91-111 | the square of the error never exceeds the Brier score |
| `LiveCalibration.Outcome` | app/src/application/services/live_signal_metrics.py:72-77 | the recorded probability is in [0, 1] and the label 0 or 1 |
| `LiveCalibration.LiveSignals.Record` | app/src/application/services/live_signal_metrics.py:57-88 | the outcome is appended to the bounded window of its symbol, the others stay, and the snapshot describes the new window |
| `LiveCalibration.LiveSignals.LiveSignalSnapshot` | app/src/application/services/live_signal_metrics.py:91-111 | count, win rate, Brier score and calibration error of the window, with the empty defaults |
| `LossTracker.StepKeepsValid` | app/src/application/services/direction_loss_tracker.py:63-99 | every step keeps at most one losing side a symbol and a time stamp exactly with a positive counter |
| `LossTracker.RunIsValid` | app/src/application/services/direction_loss_tracker.py:63-99 | so does every run of outcomes, prunes and resets |
| `LossTracker.PruneKeepsRecent` | app/src/application/services/direction_loss_tracker.py:86-99 | after a prune exactly the stamps within the age limit remain, with their counters |
| `LossTracker.CounterIsTrailingRun` | app/src/application/services/direction_loss_tracker.py:63-99 | with prunes and resets anywhere, the counter is the trailing run of losses of the history |
| `LossTracker.CounterIsLongestSuffix` | app/src/application/services/direction_loss_tracker.py:63-80 | without pruning it is the length of the longest suffix of losses on that side |
| `LossTracker.LockedAfterTwoLosses` | app/src/application/services/direction_loss_tracker.py:82-84 | without pruning a side is locked if and only if the symbol's last two outcomes are losses on it |
| `LossTracker.DirectionLossTracker.RecordOutcome` | app/src/application/services/direction_loss_tracker.py:63-80 | the two dictionaries follow the recorded outcome |
| `LossTracker.DirectionLossTracker.PruneObsolete` | app/src/application/services/direction_loss_tracker.py:86-99 | the loop over symbols and sides is one prune step |
| `LossTracker.DirectionLossTracker.ConsecutiveLosses` | app/src/application/services/direction_loss_tracker.py:55-61 | the number read for a side is the trailing run of losses of the history |
| `LossTracker.DirectionLossTracker.AntiTrendLockActive` | app/src/application/services/direction_loss_tracker.py:82-84 | a side is locked if and only if that run has at least two losses |
| `LossTracker.DirectionLossTracker.Clear` | app/src/application/services/direction_loss_tracker.py:46-49 | both dictionaries are emptied |
| `QuoteGuard.EdgeIsWorth` | app/src/application/services/rise_fall_quote_guard.py:104-116 | a flip candidate passes if and only if its probability less the haircut clears the floor and the break-even margin |
| `QuoteGuard.BothSidesPass` | app/src/application/services/rise_fall_quote_guard.py:80-116 | both sides pass for some probability if and only if an even chance passes |
| `QuoteGuard.AtMostOneSide` | app/src/application/services/rise_fall_quote_guard.py:80-116 | with a payout of at most 1 and a floor that is not negative at most one side passes |
| `QuoteGuard.LossFlipJudgesAlike` | app/src/application/services/rise_fall_quote_guard.py:36-54 | under a loss-classifier flip a quote passes if and only if the classifier's probability does, so both sides get the same verdict |
| `QuoteGuard.JudgeMirrors` | app/src/application/services/rise_fall_quote_guard.py:80-116 | judging a side at p and the other side at 1 - p gives the same verdict |
| `QuoteGuard.PassingBeatsBreakEven` | app/src/application/services/rise_fall_quote_guard.py:80-101 | an accepted quote beats the break-even probability by haircut and margin |
| `MarketTrigger.BothSidesVetoed` | app/src/application/services/execution_four_vetoes.py:39-84 | both sides are vetoed at once if and only if a wick is exactly 30% and the body exactly 70% of the candle in the one picture described |
| `MarketTrigger.VetoMirrors` | app/src/application/services/execution_four_vetoes.py:39-84 | turning candle, indicators and sides upside down mirrors the veto of every side |
| `MarketTrigger.StatusMirrors` | app/src/application/services/execution_four_vetoes.py:96-175 | the trigger treats both sides alike |
| `MarketTrigger.MissingFloor` | app/src/application/services/execution_four_vetoes.py:125 | a missing floor makes no difference between flip and trigger on any quote if and only if it is given, the haircut is out of range, or the margin times 1.01 exceeds a hundredth of 1 - haircut |
| `MarketTrigger.FloorsSplit` | app/src/application/services/rise_fall_quote_guard.py:112 | otherwise a sure CALL at a payout of 1.01 / (1 - haircut) - 1 passes for a flip and not for the trigger |
| `MarketTrigger.TriggerLeavesVetoedSide` | app/src/application/services/execution_four_vetoes.py:96-175 | an accepted trigger leaves a vetoed side for one that is not vetoed and has an edge |
| `ErrorReversal.ArmedMeansConfidentLoss` | app/src/domain/math/error_driven_reversal.py:6-39 | with a threshold above 1/4 a loss arms if and only if the lost side's probability squared reaches the threshold and it reaches the conviction, so it was the favoured side |
| `ErrorReversal.BagIsOpenArming` | app/src/application/services/direction_error_reversal.py:33-150 | the bag holds the last arming not followed by a resolution, win or disabled settlement of the symbol |
| `ErrorReversal.UsedAtMostOnce` | app/src/application/services/direction_error_reversal.py:92-150 | over every run, uses plus the arming still open never outnumber the armings |
| `ErrorReversal.AppliedAgainstLoss` | app/src/application/services/direction_error_reversal.py:92-150 | an applied reversal goes against a side that lost, armed in this cycle or the one before |
| `ErrorReversal.AlphaReversal.RecordOnSettlement` | app/src/application/services/direction_error_reversal.py:33-89 | arms, clears or leaves the entry of the symbol |
| `ErrorReversal.AlphaReversal.ApplyToDirection` | app/src/application/services/direction_error_reversal.py:92-150 | consumes the entry and turns the direction exactly when it applies |
| `FlipChain.Confluence` | app/src/application/services/execution_direction_resolver.py:121-181 | without inversion, when an even chance does not pass: all accepted flips choose one side, which is final and the only one with an edge, and the trigger never undoes another flip |
| `FlipChain.UsualConfluence` | app/src/application/services/execution_direction_resolver.py:121-181 | this holds for every payout of at most 1 with a floor that is not negative |
| `FlipChain.AgreementIsExact` | app/src/application/services/execution_direction_resolver.py:121-181 | with the flips switched on they agree on all inputs with a reachable bag if and only if an even chance does not pass |
| `FlipChain.GenerousPayoutDisagrees` | app/src/application/services/execution_direction_resolver.py:121-181 | a payout of 3 and a bag armed by one settlement at which two accepted flips choose different sides |
| `FlipChain.LockMirrors` | app/src/application/services/direction_loss_tracker.py:134-186 | the lock treats the two sides alike if and only if it is not left to one of its two rules with a fixed probability while the proposal is strong either way: a condition on guards, edge and max(p, 1 - p) |
| `FlipChain.LockIsLopsided` | app/src/application/services/direction_loss_tracker.py:175-186 | after one loss a CALL at 80% is left alone while the mirrored PUT at 80% is to be flipped |
| `FlipChain.AntiTrendMirrors` | app/src/application/services/execution_direction_resolver.py:123-168 | the lock's stage is mirrored if and only if its lopsided comparison decides a flip that is allowed, not weak and accepted by the quote test |
| `FlipChain.FavouredIsNotFlipped` | app/src/application/services/execution_direction_resolver.py:123-168 | when an even chance does not pass, the lock never flips a proposal the calibrated probability does not speak against |
| `FlipChain.ChainMirrors` | app/src/application/services/execution_direction_resolver.py:121-182 | every stage and the final side are mirrored if and only if the lopsided comparison does not reach the direction |
| `FlipChain.FavouredMirrors` | app/src/application/services/execution_direction_resolver.py:121-182 | when an even chance does not pass, favoured proposals are always treated alike |
| `FlipChain.ChainIsLopsided` | app/src/application/services/execution_direction_resolver.py:121-182 | at a payout of 0.85 a CALL at a rise probability of 20% is turned to PUT while the mirrored PUT stays PUT |
| `FlipChain.FlipMetrics.FinalizeDirection` | app/src/application/services/execution_direction_resolver.py:121-187 | the staged method returns the specified direction, consumes the armed reversal and sets the flags and the origin |
| `FlipChain.FlipMetrics.AntiTrendStage` | app/src/application/services/execution_direction_resolver.py:123-168 | flips exactly when the lock wants it, the regime is not weak and the flipped side has an edge |
| `FlipChain.FlipMetrics.TriggerStage` | app/src/application/services/execution_four_vetoes.py:96-175 | turns around and clears the other flags exactly when the trigger is accepted |
| `FlipChain.ResolveFresh` | app/src/application/services/execution_direction_resolver.py:121-187 | with fresh metrics the origin names the flip that decided, and no flip leaves the proposal standing |
| `Backtester.Configure` | app/src/domain/analytics/event_driven_backtester.py:40-50 | the constructor enforces a horizon of at least 1, no negative delay and a payout of at least 0.01 |
| `Backtester.Run` | app/src/domain/analytics/event_driven_backtester.py:52-128 | the single pass fails exactly on unreadable prices, and otherwise reports counts, profit, factor, expectancy and the true maximum drawdown |
| `Backtester.Settle` | app/src/domain/analytics/event_driven_backtester.py:69-86 | one signal is skipped, fails or is priced as specified |
| `Backtester.PeakStep` | app/src/domain/analytics/event_driven_backtester.py:99-100 | the running peak is the largest equity up to now |
| `Backtester.DrawdownStep` | app/src/domain/analytics/event_driven_backtester.py:101-102 | one step of the one-pass drawdown keeps it the maximum over all earlier and later points |
| `Backtester.EverySettledSignalCounts` | app/src/domain/analytics/event_driven_backtester.py:70-74 | wins plus losses is the number of signals whose expiry lies inside the series |
| `Backtester.UnreadableSignal` | app/src/domain/analytics/event_driven_backtester.py:70-77 | the pass fails if and only if a settled signal is filled before the start of the wrapped series |
| `Backtester.ReportedProfitIsNet` | app/src/domain/analytics/event_driven_backtester.py:85-96 | reported profit is gross profit less gross loss if and only if every losing signal has a stake that is not negative, so whenever no stake is negative |
| `Backtester.NegativeStakeUnbalances` | app/src/domain/analytics/event_driven_backtester.py:85-96 | a signal with a negative stake for which profit and gross figures differ |
| `Backtester.ProfitNeedsBreakEvenRate` | app/src/domain/analytics/event_driven_backtester.py:107-110 | with equal positive stakes profit is positive if and only if the win rate exceeds 1 / (1 + payout) |

## Left out

- I/O: the broker connection, Redis, databases, object storage and log output. The shared store is a key with value and expiry, the candle server a fixed sorted list.
- Settings loaders: configuration records with the ranges the loaders enforce; a missing key is an option where the code treats it differently.
- Values that are not finite: NaN and infinities, and every test for them; floats are reals and `round(x, 4)` rounds half to even on reals.
- FractionalDiff.FracDiffCausal: one-dimensional series only; two-dimensional input is the same operation column by column, and NaN entries that are blanked and restored are not modelled.
- The Kelly fraction and the base stake before neutral flooring (win-rate estimates, entropy retention, stop-win boost, target damping) enter the pipeline as arbitrary inputs, so the bounds hold for whatever they produce.
- StakePipeline.CalculateStake: telemetry fields that no later stage reads, the D'Alembert unit, log text and the halving of the Kelly scale by a soft veto are not modelled; the recovery permission is an input.
- RecoverySizing.RecoveryStakeCovers: the result of the conviction ladder is a field of the signal record.
- Restoring a risk snapshot, quarantine of symbols, and the proposal-skip counters of the risk manager.
- RiskManagement.RiskManager.RegisterConfirmed: whether the settlement was already seen and whether the contract is among the open ones are inputs, because both tables live in other services.
- OrderClaim.AtMostOneHolder: the symbol lock is overwritten on purpose when no contract is open, so only the order key is claimed exclusive; blocked symbols after an unconfirmed purchase are not modelled.
- RecoveryClaim.AtMostOneLiveClaim: exclusion is stated for the lease interval, because the code gives no more.
- Processes are modelled on one clock that never runs backwards; a stopped shared store loses no keys.
- OrganicDirection.CalcSessionBands: the square root is an arbitrary function, so no property of it is used.
- HistoryPaging.FetchPaginated: delays between attempts, the text search that recognises a rate limit, and conversion of raw rows; an attempt times out, is limited, is refused or delivers. The history does not change during the download.
- RingBuffer.DisruptorRingBuffer.PushTick: epochs are unbounded integers, not 64-bit words.
- RingBuffer.RustRingBuffer.PushTick: wrap-around of an optimised build; a debug build stops at that point instead.
- The realised volatility of the native library: a logarithm and a square root around a sum.
- CandleStream.CandleStore.ApplyCandleUpdate: lists are values of a map, so a caller that keeps an alias to a history list is not modelled.
- LiveCalibration.LiveSignals.Record: periodic log lines and the soft drift veto that reads the snapshot.
- LossTracker.DirectionLossTracker.RecordOutcome: the clock is a parameter and the joined time-stamp key is a pair; snapshots for display.
- ErrorReversal.AlphaReversal.ApplyToDirection: an entry without a target side, which no code path creates.
- FlipChain.FlipMetrics.FinalizeDirection: conviction, score and edge written beside the direction, and the skip gates after it.
- MarketTrigger: how the last two closed candles are found in the stream; they are part of the view.
- Backtester.Run: the Sharpe ratio and the drawdown in percent of the peak.
- Skip gates, regime classifiers, ranking scores and the other flat threshold tests; model training, optimisation and the transcendental formulas.
