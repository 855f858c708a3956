# Verified model of the trading laboratory's core

This project models the deterministic core of a forex strategy laboratory and proves what it keeps,
over every input and every history:

- the **backtest engine** and its broker: a bar loop over a mutable ledger of cash, lots, swap
  accumulators, peak and day-start equity (`Costs`, `Ledger`, `LedgerLaws`, `BacktestBroker`,
  `Engine`, `BacktestEngine`), with theorems over whole runs (`RunInvariant`, `RunSoundness`, `RunMoney`,
  `RunTrades`, `RunOrders`, `RunSwap`, `RunHistory`, `RunDay`, `RunDrawdown`, `Causality`) and concrete
  runs (`FirstOrder`, `LeakWitness`, `SlotWitness`, `RuinWitness`);
- the **rollover arithmetic** the engine counts with loops (`Rollover`);
- the **risk gate**, a latching kill switch followed by sequential caps with a resize (`RiskGate`,
  `GateLaws`), and the **gated paper path** built on it (`PaperLedger`, `PaperBroker`, `PaperLaws`,
  `PeakLaws`, `Execution`);
- the **metric pack** and the **economics** that are later derived back out of it (`Metrics`,
  `Economics`, `RunEconomics`);
- the **greedy shortlist** of the pair screener (`Sorting`, `Shortlist`, `ShortlistLaws`), the
  **walk-forward windows and the held-out split** (`WalkForward`), and the **strategy interface**
  with its reference crossover (`Strategy`);
- the **slow-loop cycle** with its registry and approval queue (`Registry`, `Cycle`,
  `Orchestrator`, `CycleLaws`, `CycleOutcome`).

## How it is built

Code that changes things in place is a class whose methods and loops are proved equal to a pure
specification: `BacktestEngine.Run` equals `Engine.Run`, `RiskManager.Evaluate` equals `RiskGate.Gate`,
`ExecutionEngine.Submit` equals `Execution.Submitted`, `Orchestrator.RunCycle` equals `Cycle.Pipeline`
followed by `Cycle.Report`, and so on. The theorems are then stated about the specification, by
induction over bars, events or verdicts.

`Decimal` and `float` values are exact reals, times are integer microseconds from 0001-01-01 (a
Monday), trade ids are their sequence numbers, and a strategy identity is the canonical rendering of
its spec. A strategy is any deterministic function of all the calls it has received, which covers
whatever internal state it keeps; `Strategy.MovingAverageCrossover` is proved to be one. A run assumes
what the source needs not to raise: every open and close is wider than half spread plus slippage, and
cost parameters other than swap are not negative.

## What the code does that its descriptions do not say

Each item is a theorem below; where a described property fails, the exact condition is proved.

- **Look-ahead.** The equity curve and the strategy's calls depend on past and present bars only. The
  account that a second or later signal of a bar is judged on does not: after a lot opens, it is
  re-taken with a fill at the next bar's open. `NextOpenReachesDecisionsExactlyAfterAnOpen` gives the
  exact condition for that account to depend on the next open; that the decision itself can change with
  it is shown by `NextOpenCanHaltThisBar`, a concrete pair of histories.
- **Two drawdowns.** The engine's maximum drawdown saturates at one, the metric pack's does not; they
  agree exactly when no sampled equity is negative. `RuinWitness` has a run where they differ.
- **Swap.** A weekend multiplier is applied to every rollover of a gap that contains a Wednesday, so
  the charge equals calendar swap exactly when the rate is zero, the multiplier is one, or no gap mixes
  the two. `RuinWitness` has a trade charged more.
- **One slot.** The position cap rejects a signal in a run exactly when it is one and a lot is held: an
  opposite signal is judged while the lot it would close is open, so with
  `max_concurrent_positions = 1` a run opens at most one trade. `SlotWitness` has such a rejection.
- **Caps.** Raising the per-trade cap can turn an accepted order into a rejected one, since that cap
  resizes where the others reject. Loosening any other cap never does.
- **Paper broker.** A close or an open can report an error after it has been booked, exactly when a
  position of the resulting book has no quote when the broker marks it. Through the gated path this
  leaves a position open that no fill reports, with its commission paid and the latch engaged.
- **Economics.** Realized P&L is already net of spread and slippage and swap is signed, so the window's
  gross P&L is off by twice the swap less the exit friction of an open trade, and its net expectancy by
  spread + slippage + twice the swap + unrealized P&L in total. The module's own description calls the
  latter net of costs. `RuinWitness` has a run where both are off.
- **Cycle.** Two proposals of one strategy under different ids can leave an identity queued for a human
  and recorded as killed. Re-proposing a strategy overwrites even a champion's entry.

## Model

| member | source | states |
|---|---|---|
| RunSoundness.RunSound | core/backtest/engine.py:419-612 | After any number of bars of any run: at most one lot, live trades and swap accumulators mirror it, cash is fully accounted for, cost totals match the trades, every trade has its two decision bars, and once a trade was opened a lot is held until a halt |
| RunMoney.EndingBalanceFromLog | core/backtest/engine.py:614-665 | The reported balance is the starting balance plus, over the reported log, realized P&L less commissions plus swap |
| RunMoney.EquityAttributedAtEveryBar | core/backtest/engine.py:157-203 | At every mark, equity is the starting balance plus the P&L of every trade between the bar opens that followed its decisions (the open one to this close), less spread, slippage and commission, plus signed swap, less the exit friction of the open lot; every decision is of an earlier bar |
| RunMoney.EndingEquityAttributed | core/backtest/engine.py:614-665 | The same identity for the reported equity, log and cost totals, for any decision bars that explain the reported log |
| RunMoney.ReportedLogDecided | core/backtest/engine.py:567-647 | Such decision bars exist for every run: each reported trade, the open one included, was filled at the open after its decision |
| RunMoney.CostBreakdownFromLog | core/backtest/costs.py:61-77 | Each of the four reported cost totals is the sum of what the reported trades were charged, fill by fill; spread, slippage and commission are size times their rate on every fill |
| RunMoney.RecordsInMarketTerms | core/backtest/costs.py:92-137 | Every record is filled at the open of the bar after each of its decisions, half a spread and the slippage to the worse side; each fill's commission is size times the rate, and its P&L is the price difference on its side times the size |
| RunMoney.MidsAreBarOpens | core/backtest/costs.py:92-128 | The P&L over mids recovered from the fills is the P&L over bar opens, closed trades and the open one alike |
| RunTrades.TradeLogOfRun | core/backtest/engine.py:567-647 | The log has one record per opened trade, numbered in order; directions alternate, each exit is the next entry, only the last may be open, none after a halt, and each record is explained by its decision bars |
| RunTrades.SignalsAccounted | core/backtest/engine.py:537-600 | Every proposed signal is reported accepted or rejected, unless a trip in mid-bar left some unevaluated; trades never outnumber acceptances |
| RunOrders.RunExecutesItsSignals | core/backtest/engine.py:521-600 | Each reported trade k stems from a signal the strategy answered when called at bar ds[k]: its pair and side, the most of its size that the per-trade cap leaves at the equity of that moment, and within every other cap; the same ds explain the log's fills and swap |
| RunOrders.SignalOpensItsTrade | core/backtest/engine.py:539-600 | A signal opens a trade exactly when it is on the engine's pair, accepted, and its side is not held; the lot has the signal's pair, side and stop and the clipped size, and is then the only one; otherwise the books do not move |
| RunOrders.SignalIsJudgedOnce | core/backtest/engine.py:539-566 | Each signal is counted accepted or rejected as the gate judged it, and stops the loop exactly when it leaves the latch engaged |
| RunOrders.OrderClosesTheOtherSide | core/backtest/engine.py:567-578 | The lots an accepted order closes are those of its own pair on the other side |
| RunOrders.BarHaltsExactlyWhen | core/backtest/engine.py:461-600 | A bar halts the run exactly on a breach of its account (blamed on the drawdown first), else when the strategy raises, else when a signal trips the gate |
| RunDay.RealizedTodayFromLog | core/backtest/engine.py:130-280 | What an account reports as realized today is the profit less exit commission of the trades whose closing was decided at an earlier bar of the same trading day |
| RunSwap.LogIsCharged | core/backtest/engine.py:282-308 | Every trade of a log was charged swap from its opening decision to its closing one, or up to the last bar while open |
| RunSwap.SwapClosedForm | core/backtest/engine.py:282-343 | Swap paid on a trade, closed or open: daily charge times the rollovers it was held over, plus the surcharge on Wednesdays and on rollovers that share a gap with one |
| RunSwap.SwapMatchesCalendarExactlyWhen | core/backtest/engine.py:282-343 | That equals size times rate times (R + (m-1)W) exactly when the rate of the trade's side is zero, the multiplier one, or no gap mixes a Wednesday with another rollover |
| RuinWitness.SwapExceedsCalendar | core/backtest/engine.py:330-343 | A concrete run with a trade that paid more than the calendar swap |
| RunSwap.DailyGapsChargeTheCalendar | core/backtest/engine.py:282-343 | With gaps of at most a day the charge is always the calendar one |
| RunSwap.SwapNeverBelowCalendar | core/backtest/engine.py:330-343 | Whatever the gaps, a multiplier of at least one never charges less than the calendar, on the same side of zero |
| Rollover.RolloversBetween | core/backtest/engine.py:310-328 | The counting loop ends and returns the difference of two floor divisions |
| Rollover.ClosedFormsCountDays | core/backtest/engine.py:310-343 | Those closed forms count the days whose rollover lies in the interval, and the Wednesdays among them |
| Rollover.WednesdaysRecurWeekly | core/backtest/engine.py:330-343 | Counted from a Monday, every seventh day from the third is a Wednesday |
| Rollover.WeekendMultiplierIfApplicable | core/backtest/engine.py:330-343 | The search loop returns the weekend multiplier exactly when a Wednesday rollover lies in the gap |
| Rollover.FirstAnchorAfter | core/backtest/engine.py:310-320 | The first anchor considered is the first rollover strictly after the start |
| Rollover.CountsAdditive | core/backtest/engine.py:310-343 | Both counts add up over any split of the interval |
| Rollover.BarDayCountsRollovers | core/backtest/engine.py:147-155 | The trading day advances by exactly the rollovers crossed |
| RunHistory.DayResetsExactlyOnRollover | core/backtest/engine.py:130-155 | A bar resets the daily counters exactly when the gap before it crossed a rollover, and the new day starts from the previous mark |
| RunHistory.DayStartOfAccounts | core/backtest/engine.py:130-145 | The day start an account is measured against is the equity the last bar left, at least 0.01, when a rollover was crossed, and the last account's otherwise |
| RunHistory.RunRecords | core/backtest/engine.py:445-535 | The curve and the strategy calls are one per bar, each taken from that bar's own account |
| RunHistory.SamplesReadAccounts | core/backtest/engine.py:487-496 | Each sample carries its bar's index and time and the balance, equity and number of positions of that bar's account |
| RunHistory.AccountReadsLog | core/backtest/engine.py:170-203 | The account of a bar has the starting balance plus the net of the log as its balance, the log's open trade as its position, and equity equal to balance plus unrealized |
| RunHistory.FirstAccount | core/backtest/engine.py:101-145 | The first bar's account is the starting balance, all in cash, with peak and day start there |
| RunHistory.BreachesInMoney | core/models.py:219-247 | A loss fraction reaches its limit exactly when the money lost reaches that fraction of the peak, or of the day's start |
| RunHistory.BelowLimitsUntilHalt | core/backtest/engine.py:461-512 | Every bar before the halting one was inside both loss limits |
| RunHistory.HaltCause | core/backtest/engine.py:461-523 | A run halts at a bar check exactly when that bar's account breached a limit, and names the limit it reached, the drawdown first |
| RunHistory.HaltedRun | core/backtest/engine.py:498-647 | A halted run has halting index + 2 samples, ends with no open lot and with its equity all cash |
| RunHistory.CompletedRun | core/backtest/engine.py:602-665 | A completed run has one sample per bar, all but the last inside both limits |
| Causality.RunsAgreeOnThePast | core/backtest/engine.py:445-665 | Two runs over histories that agree on bars 0 to t report the same equity samples 0 to t and make the same strategy calls up to t, whatever follows |
| Causality.NoLookAhead | core/backtest/engine.py:445-535 | On the way, they have the same state, account, sample, strategy call and answer at bar t |
| Causality.StateDeterminedByPast | core/backtest/engine.py:445-612 | The state entering bar t depends on bar t only through its open and its time |
| Causality.NextOpenReachesDecisionsExactlyAfterAnOpen | core/backtest/engine.py:539-600 | With different next opens, the account given to the next risk decision is the same exactly when no signal of this bar has opened a lot yet |
| LeakWitness.NextOpenCanHaltThisBar | core/backtest/engine.py:539-600 | Two histories equal on bar 0 of which one halts at bar 0 and the other does not |
| Causality.AccountFreshAtEverySignal | core/backtest/engine.py:539-600 | The account passed to every evaluation is the broker's snapshot at that moment, although it is re-taken only after an open |
| Causality.PositionCapRejectsExactlyWhen | core/risk_manager.py:294-306 | In a run, the position cap rejects a signal exactly when it is set to one, a lot is held and nothing earlier in the gate objects |
| Causality.SingleSlotNeverFlips | core/backtest/engine.py:539-597 | With one position slot a run opens at most one trade |
| SlotWitness.FlipIsRejected | core/backtest/engine.py:539-597 | A concrete run whose opposite signal is rejected for the slot held by the lot it would close |
| BacktestEngine.BacktestEngine.Run | core/backtest/engine.py:419-676 | The imperative loop over broker, risk manager, curve, live trades and closed trades returns exactly the specified result |
| BacktestEngine.BacktestEngine.Create | core/backtest/engine.py:384-415 | Construction fails exactly on fewer than two bars, mixed pairs or unordered bars |
| BacktestEngine.BacktestEngine.RunBar | core/backtest/engine.py:445-612 | One loop iteration takes the specified step |
| BacktestEngine.BacktestEngine.TakeSignals | core/backtest/engine.py:539-600 | The signal loop, with its two ways of stopping, computes the specified turn |
| BacktestEngine.BacktestEngine.Execute | core/backtest/engine.py:567-600 | Close the opposite lots, skip on a same-side one, otherwise open and record |
| BacktestEngine.BacktestEngine.CloseEach | core/backtest/engine.py:680-716 | Closing every listed lot by id moves each to the closed log with its consumed swap |
| BacktestEngine.BacktestEngine.FlattenAll | core/backtest/engine.py:718-747 | Flattening closes every open lot and empties the live trades |
| BacktestBroker.BacktestBroker.OpenAtNextOpen | core/backtest/engine.py:205-247 | Fills at the next open, charges commission, cost totals and an empty swap accumulator, and changes nothing else |
| BacktestBroker.BacktestBroker.CloseAtNextOpen | core/backtest/engine.py:249-280 | Books the realized P&L less commission and removes that lot |
| BacktestBroker.BacktestBroker.ApplySwapIfRollover | core/backtest/engine.py:282-308 | Charges every open lot for the gap into cash, the lot, its trade's accumulator and the total |
| BacktestBroker.BacktestBroker.MarkToMarket | core/backtest/engine.py:157-168 | Remembers the close and raises the peak to the marked equity |
| BacktestBroker.BacktestBroker.MaybeRollDay | core/backtest/engine.py:130-155 | Resets the daily counters on a new trading day |
| BacktestBroker.BacktestBroker.Snapshot | core/backtest/engine.py:170-184 | The account the broker reports, with its positions in opening order |
| BacktestBroker.BacktestBroker.ConsumeSwapForTrade | core/backtest/engine.py:353-356 | Returns a trade's accumulated swap once and forgets it |
| LedgerLaws.AccountShowsEveryLot | core/backtest/engine.py:170-203 | With any number of lots the account shows each position in order, and its equity is cash plus every lot's mark at the side it would close at; a pair never marked counts nothing |
| LedgerLaws.EveryLotIsCharged | core/backtest/engine.py:282-308 | A gap charges each of any number of lots its size times its side's rate times the gap's unit-days, into the lot and its trade's accumulator, and moves cash and the swap total by the sum |
| LedgerLaws.ClosingLeavesTheOthers | core/backtest/engine.py:680-716 | Closing some trades leaves exactly the other lots, in their order |
| LedgerLaws.FlatteningLeavesNothing | core/backtest/engine.py:718-747 | Flattening leaves nothing held, however many lots there were |
| Metrics.MaxDrawdown | core/backtest/metrics.py:148-157 | The scan loop computes the recursive running-peak drawdown |
| Metrics.ScanFindsDeepestFall | core/backtest/metrics.py:148-157 | With no negative sample that is the deepest relative fall from any sample to a later one |
| Metrics.ComputeTradeMetrics | core/backtest/metrics.py:159-178 | Win rate, profit factor and averages are those of the wins, losses and even trades |
| Metrics.WinsAndLosses | core/backtest/metrics.py:159-178 | Wins and losses split the trades and their sums, and cover them exactly when none is even |
| Metrics.MetricsMeasureTrades | core/backtest/metrics.py:159-178 | Win rate and average times the count are the winners and the total; profit factor times gross losses is gross wins, has no value exactly when there are wins and no losses, and is zero with neither |
| RunDrawdown.ReportedCurveTracked | core/backtest/engine.py:487-496 | Every reported curve starts at the starting balance, and each drawdown sample is measured from the curve's own running peak |
| RunDrawdown.ReportsAgreeExactlyWhenSolvent | core/backtest/engine.py:662-665 | The engine's and the metric pack's maximum drawdown agree exactly on the runs without a negative equity sample |
| RuinWitness.DrawdownsDisagree | core/backtest/engine.py:662-665 | A concrete run that samples a negative equity and reports two different maxima |
| RunDrawdown.ReportedDrawdownIsDeepestFall | core/backtest/engine.py:662-665 | On those runs both are the deepest fall of the reported curve |
| Economics.DecompositionInvertsMetrics | core/analysis/economics.py:138-165 | From win rate, profit factor and average it answers exactly on the decomposable logs, with gross wins per winner and gross losses per non-winner |
| Economics.RecoveredLossIsAverageLossExactlyWhen | core/analysis/economics.py:138-165 | The recovered loss is the true average loss exactly when no trade is even |
| Economics.DecompositionReconstructsExpectancy | core/analysis/economics.py:138-165 | Win rate times average win less loss rate times average loss is the average trade |
| Economics.WindowShares | core/analysis/economics.py:168-211 | Return, cost to edge and cost per trade times their bases are net P&L, cost and cost; the last two exist exactly with positive gross P&L and with trades |
| RunEconomics.GrossPnlExactlyWhen | core/analysis/economics.py:168-211 | On every run, the window's gross P&L is the P&L between bar opens plus twice the swap less the open trade's exit friction, and is that P&L exactly when the two cancel |
| RunEconomics.GrossPnlOffByTwiceSwap | core/analysis/economics.py:168-211 | On a run that ends flat it is off by exactly twice the swap |
| RunEconomics.NetExpectancyExactlyWhen | core/analysis/economics.py:168-211 | On every run that closed a trade, net expectancy over all closed trades misses net P&L by spread + slippage + twice the swap + what is marked but not realized, and matches exactly when that is zero |
| RunEconomics.NetExpectancyOnFlatRuns | core/analysis/economics.py:168-211 | On a run that ends flat it misses spread + slippage + twice the swap |
| RunEconomics.ReturnIsEquityChange | core/backtest/metrics.py:118-124 | The return a run reports, times its starting balance, is the change of its equity |
| RuinWitness.EconomicsAreOff | core/analysis/economics.py:168-211 | A concrete run, ending flat, on which both figures are wrong |
| RiskGate.RiskManager.Evaluate | core/risk_manager.py:211-422 | The sequential gate, with its trips and its reassigned order, returns the specified decision and latch |
| RiskGate.RiskManager.EvaluateCaps | core/risk_manager.py:307-422 | The resize and the four rejecting caps, in order, with the first broken cap as the reason |
| RiskGate.RiskManager.Trip | core/risk_manager.py:149-183 | Engages the latch; a re-trip keeps the first cause |
| RiskGate.RiskManager.Reset | core/risk_manager.py:185-207 | Releases the latch exactly on the literal confirmation |
| GateLaws.AcceptedExactlyWhen | core/risk_manager.py:211-422 | An order is accepted exactly when the latch is released, equity is positive, neither loss has reached its configured fraction, the stop is off the entry, and the book with the largest size the per-trade cap leaves meets every configured cap; that size goes on and the latch is untouched |
| GateLaws.CapsAcceptExactlyWhen | core/risk_manager.py:307-422 | The caps let an order through exactly when the book holding its clipped size meets all five |
| GateLaws.AcceptanceIsSound | core/risk_manager.py:307-422 | An accepted order keeps pair, side and prices; its size is the largest within the request whose stop loss is at most maxRiskPerTrade of equity; with it, pair exposure, each group's exposure and portfolio risk are within their configured shares of equity and a slot is free |
| GateLaws.RejectionNamesTheFirstObstacle | core/risk_manager.py:211-422 | A rejection gives the first obstacle in the gate's order, each written out on the configuration, the account and the book |
| GateLaws.DecisionRecords | core/risk_manager.py:403-470 | A decision has reasons exactly when it rejects, an order exactly when it accepts, and names the rule that limited it |
| GateLaws.LimitsAreTheCaps | core/risk_manager.py:307-402 | The limits the gate computes with are the configured shares of equity |
| GateLaws.LossesInMoney | core/models.py:219-247 | Both loss fractions reach a limit exactly when the money lost does |
| GateLaws.SizedIsLargest | core/risk_manager.py:307-345 | The resize is the largest size within the request whose stop loss fits the per-trade cap |
| GateLaws.CapsIdempotent | core/risk_manager.py:307-422 | The clipped order passes the caps again and is not clipped again |
| GateLaws.AcceptanceIsIdempotent | core/risk_manager.py:211-422 | Evaluating the sized order again approves it unchanged |
| GateLaws.CapsDownwardClosed | core/risk_manager.py:307-422 | A smaller request passes whenever a larger one does, and never gets a larger fill |
| GateLaws.AcceptanceDownwardClosed | core/risk_manager.py:211-422 | The same for the whole gate |
| GateLaws.CapsAntitoneInPositions | core/risk_manager.py:346-402 | One more open position never lets an order past the caps that was stopped before |
| GateLaws.AcceptanceAntitoneInPositions | core/risk_manager.py:294-422 | The same for the whole gate at equal equity, with the same sized order |
| GateLaws.LooserCapsKeepAcceptance | core/models.py:735-779 | Loosening every limit but the per-trade cap keeps every acceptance, with the same order |
| GateLaws.RaisingTradeCapCanReject | core/risk_manager.py:307-402 | A concrete order accepted at one per-trade cap and rejected at a higher one |
| GateLaws.GateTripsExactlyOnBreach | core/risk_manager.py:231-293 | An evaluation leaves the latch engaged exactly when it was, or a live account has lost its configured fraction of the peak or of the day's start, with the cause recorded; it never releases it |
| Models.NotionalOfInsert | core/models.py:120-152 | A position inserted anywhere adds exactly its own notional to a group's exposure |
| PaperBroker.PaperBroker.PlaceOrder | core/paper_broker.py:131-184 | Every error path and the booked fill, in the source's order |
| PaperBroker.PaperBroker.ClosePosition | core/paper_broker.py:186-243 | Closes the first equal position, or fails as specified |
| PaperBroker.PaperBroker.GetAccountState | core/paper_broker.py:109-126 | Marks every position, bumps the peak and reports the account |
| PeakLaws.AccountReports | core/paper_broker.py:109-126 | A successful read reports cash, cash plus the marks, and the higher of the old peak and that equity; one that misses a quote leaves no trace |
| PeakLaws.PeakIsHighestLook | core/paper_broker.py:109-262 | After any history from a new broker its peak is the highest of the starting balance and every equity it has looked at with all quotes present, and its day start has not moved |
| PeakLaws.DeepFallPlacesNothing | core/execution.py:88-169 | A submission that reads equity down by the drawdown limit from anything looked at earlier places and books nothing, and leaves the latch engaged unless the order is refused earlier for its stop or for equity that is gone |
| PaperLaws.NoMoneyPump | core/paper_broker.py:131-262 | At frozen quotes any sequence of opens and closes loses exactly spread, markup and commission of what filled, and leaves the peak alone |
| PaperLaws.PerformKeepsCashAccounted | core/paper_broker.py:131-243 | Any operation, even a failing one, keeps cash = start + realized P&L - opening commissions |
| PaperLaws.CloseRemovesOne | core/paper_broker.py:186-243 | A close removes exactly one equal position or changes nothing |
| PaperLaws.CloseReports | core/paper_broker.py:186-243 | A close reports the other side of the position, its size, the close side of the quote with the markup, and size times the rate |
| PaperLaws.FailuresAreNamed | core/paper_broker.py:131-243 | A failed open or close names the first obstacle in the broker's order |
| PaperLaws.CloseFailsAfterBookingExactlyWhen | core/paper_broker.py:186-262 | A close reports an error after booking exactly when a remaining position has no quote when the book is marked |
| PaperLaws.PlaceBooksExactlyWhenPaidFor | core/paper_broker.py:131-165 | An open appends its position and pays size times the rate exactly when it has a quote to fill at, a positive price and the cash, whether or not it then fails; a reported fill is of that position |
| PaperLaws.PlaceFailsAfterBookingExactlyWhen | core/paper_broker.py:131-184 | It reports an error after that exactly when some position of the enlarged book has no quote when the book is marked |
| PaperLaws.CloseCanFailAfterBooking | core/paper_broker.py:186-262 | A concrete book where a close does |
| PaperLaws.OpenCanFailAfterBooking | core/paper_broker.py:131-184 | And one where an open does |
| Execution.ExecutionEngine.Submit | core/execution.py:88-169 | The gated path against broker and risk manager, with its exception-to-trip branches, is the specified submission; the account read, the fill and the mark that follows are each quoted on their own |
| Execution.OnlyClearedOrdersArePlaced | core/execution.py:128-142 | Only the gate's own sized order reaches the broker, with a released latch and a free slot |
| Execution.SubmitBooksExactlyWhatItPaysFor | core/execution.py:88-169 | A submission appends the position of the order it placed exactly when that was priced and paid for, changes nothing otherwise, and any reported fill is of that position |
| Execution.BookedUnreportedExactlyWhen | core/execution.py:138-160 | A position is booked that no fill reports exactly when, besides, some position of the enlarged book has lost its quote by the time it is marked |
| Execution.SubmitCanBookUnreported | core/execution.py:138-160 | A concrete submission where it happens, the latch ending engaged |
| Execution.FailuresEngageTheLatch | core/execution.py:100-160 | An unreadable account or a failed placement leaves the latch engaged by that failure; an engaged latch refuses and changes nothing |
| Execution.PlacementsAreWithinCaps | core/execution.py:88-169 | Every order placed is clipped to the per-trade cap and within every configured cap at the equity as it was read |
| Execution.NothingOpensWhileLatched | core/execution.py:88-169 | From a trip to the next confirmed reset, no history of submissions, account reads, closes and trips opens anything or replaces the first cause, whatever each call is quoted or not quoted |
| Execution.LatchedStep | core/risk_manager.py:185-207 | Under an engaged latch a confirmed reset releases it, anything else leaves it as it is, and nothing opens |
| Execution.PositionsNeverExceedCap | core/risk_manager.py:294-306 | No such history exceeds the position cap, quotes failing or moving at any call included |
| Execution.CashOverHistory | core/paper_broker.py:131-243 | Over any history cash is start plus realized P&L less size times the rate for every position booked, reported or not |
| Shortlist.SelectShortlist | core/analysis/pair_screener.py:576-648 | The screening and greedy loops return the specified shortlist and exclusions |
| Shortlist.MeasureCorrelation | core/analysis/pair_screener.py:607-613 | The inner loop finds the highest correlation with those chosen, and the first pair that has it |
| Shortlist.BuildMatrix | core/analysis/pair_screener.py:527-546 | The matrix holds ones on the diagonal and the pairwise correlation elsewhere |
| Shortlist.CorrelationSymmetric | core/analysis/pair_screener.py:360-375 | A lookup in such a matrix finds the pairwise correlation, one for a known pair with itself and zero for an unknown one, so it is symmetric when the correlation is |
| ShortlistLaws.ShortlistPartitionsProfiles | core/analysis/pair_screener.py:576-648 | Every profile is shortlisted or excluded, once |
| ShortlistLaws.ShortlistIsDecorrelated | core/analysis/pair_screener.py:576-648 | Shortlisted pairs are ranked from one, each costs no less than those before it, unmeasured ones last, and each records its highest correlation with those before it, which is within the limit |
| ShortlistLaws.ShortlistIsMaximal | core/analysis/pair_screener.py:576-648 | A suitable pair is left out only for a conflict with a chosen pair that costs no more, or because the list is full of pairs that cost no more |
| ShortlistLaws.ShortlistedAreSuitable | core/analysis/pair_screener.py:562-593 | Every shortlisted pair has enough candles and coverage, is not known to cost too much, and carries its own cost |
| ShortlistLaws.ExclusionsAreTrue | core/analysis/pair_screener.py:562-648 | Every recorded exclusion reason holds of the profiles and the final shortlist: ineligibility, a named conflicting pair with its correlation, or a full list |
| ShortlistLaws.ShortlistGrowsByAppending | core/analysis/pair_screener.py:576-648 | The shortlist of size k is a prefix of that of size k + 1 |
| Sorting.SortOrders | core/analysis/pair_screener.py:592-593 | Sorting by the cost key orders the profiles and is a permutation |
| Sorting.SortIsStable | core/analysis/pair_screener.py:592-593 | Profiles with equal keys keep their order |
| WalkForward.DataSplit.constructor | core/backtest/walkforward.py:67-79 | The two parts are the time-sorted bars cut once: a partition of the input, both parts non-empty, nothing held out earlier than what is kept |
| WalkForward.DataSplit.Create | core/backtest/walkforward.py:67-79 | Construction fails exactly on a fraction outside (0, 1) or fewer than two bars |
| WalkForward.DataSplit.AccessOutOfSample | core/backtest/walkforward.py:95-110 | Only the exact token opens the holdout, and every opening is counted |
| WalkForward.HoldoutWithinOneBar | core/backtest/walkforward.py:73-76 | The holdout leaves bars on both sides and is less than one bar off the requested share |
| WalkForward.HoldoutIsNearest | core/backtest/walkforward.py:73-76 | Among the sizes that do so it is the nearest to the requested share, the even one of two as near |
| WalkForward.WalkForwardWindows | core/backtest/walkforward.py:139-177 | The loop ends after a closed-form number of rounds and returns their usable windows |
| WalkForward.FitsExactlyBelowRounds | core/backtest/walkforward.py:160-176 | A round is sliced exactly when its number is below that closed form |
| WalkForward.BetweenIsSlice | core/backtest/walkforward.py:167-168 | The bars between two times are a run of consecutive bars of the sorted data, cut exactly at the two times |
| WalkForward.WindowsAreRounds | core/backtest/walkforward.py:139-177 | There is one window for each round that is run and has bars to train on and to test on, in order; round k starts k steps after the first bar, trains on a slice of the train length, and tests on the slice of the test length that follows it |
| WalkForward.TrainPrecedesTest | core/backtest/walkforward.py:139-177 | In every window every training bar is strictly earlier than every test bar |
| WalkForward.TestsPerBar | core/backtest/walkforward.py:139-177 | Each bar lies in at most ceil(test / step) test slices, which are disjoint once step >= test |
| WalkForward.EveryBarFallsInATest | core/backtest/walkforward.py:160-176 | With step <= test no bar between the first and the last test edge falls between rounds |
| Strategy.ViewAnswersFromThePast | core/strategy.py:63-128 | Indexing, latest and lookback answer exactly from the bars up to the decision bar |
| Strategy.IndexingRevealsExactlyThePast | core/strategy.py:80-110 | Two views answer every index alike exactly when their bars up to the decision bar are the same |
| Strategy.MovingAverageCrossover.Decide | core/strategy.py:251-291 | Keeping one remembered number answers exactly as a function of every call so far, which is the engine's view of a strategy |
| Strategy.CallAnsweredExactly | core/strategy.py:251-291 | Each call is answered long at the latest close when the difference of the latest fast and slow averages has turned positive since the remembered one, short when negative, with the stop on the losing side; else with nothing |
| Strategy.SpreadOfLatestCloses | core/strategy.py:259-262 | That difference is the average of the latest fast closes less the average of the latest slow ones |
| Strategy.SignalRepeatsExactlyAfterTouch | core/strategy.py:266-289 | Successive signals repeat a direction exactly when the spread touched zero and returned to its side |
| Orchestrator.Orchestrator.RunCycle | core/orchestration/orchestrator.py:187-252 | A cycle leaves registry, queue, cost and stages as specified and reports them; only a failed lookup escapes |
| Orchestrator.Orchestrator.RunPipeline | core/orchestration/orchestrator.py:256-402 | The stages, in order, with every early return |
| Orchestrator.Orchestrator.RunAgent | core/orchestration/orchestrator.py:428-457 | Budget check before the call, cost after it, failure on a missing output |
| Orchestrator.Orchestrator.Route | core/orchestration/orchestrator.py:366-400 | The verdict loop, stopping at a failed lookup |
| CycleLaws.CycleStaysBudgeted | core/orchestration/orchestrator.py:428-457 | Every call of a cycle was made with its ceiling still inside the cap, and the running cost is the sum of the calls |
| CycleLaws.CycleCostBounded | core/orchestration/orchestrator.py:428-457 | Total cost is at most cap - ceiling + the last call, hence within the cap if that call kept its ceiling |
| CycleLaws.LookupFailsExactlyOnStrays | core/orchestration/orchestrator.py:366-400 | The evidence lookup fails exactly when the critic lets a candidate without in-sample evidence survive |
| CycleLaws.VerdictsNameSurvivors | core/agents/critic_agent.py:226-237 | Under the critic's reference check every verdict names a proposed, evidenced, unrejected candidate |
| CycleLaws.CheckedCriticNeverFailsLookup | core/orchestration/orchestrator.py:366-400 | Under that check no cycle ends in an unreported error |
| CycleLaws.SurvivorsAreEvidenced | core/orchestration/orchestrator.py:320-334 | Triage keeps exactly the proposed candidates that ran in sample and were not rejected, and counts the rejected ones as killed |
| CycleLaws.TallyWithinProposal | core/orchestration/orchestrator.py:320-402 | Killed is rejections plus kill verdicts and queued the other verdicts, hence together at most the proposals when verdict ids are distinct |
| CycleLaws.CycleConfined | core/orchestration/registry.py:165-249 | A cycle without a proposal changes nothing; otherwise it changes exactly the proposed identities, none of them to an authorised state |
| CycleLaws.AuthorisedExactlyUnlessReproposed | core/orchestration/registry.py:165-184 | An identity is approved, champion or live after a cycle exactly when it was before and was not proposed again |
| CycleLaws.QueueOnlyExtends | core/orchestration/approval_queue.py:82-116 | The queue only grows, entry ids stay unique, and each new entry carries its own candidate, its in-sample and held-out evidence and a surviving verdict of the critic |
| CycleLaws.QueuedYetKilledExactlyWhen | core/orchestration/orchestrator.py:366-400 | The registry entry ends on the last verdict about it, with its evidence and state, so it is queued and recorded as killed exactly when some verdict survives and the last one kills |
| CycleLaws.DistinctCandidatesAgree | core/orchestration/orchestrator.py:366-400 | With distinct identities and verdict ids, an identity is queued exactly when it is recorded as queued |
| CycleLaws.TwinsAreQueuedYetKilled | core/orchestration/orchestrator.py:366-400 | A concrete cycle with two proposals of one strategy where the two disagree |
| CycleOutcome.CycleEndsExactly | core/orchestration/orchestrator.py:187-457 | A cycle calls its four workers in order, each metered at its own cost, and ends early only where the ceiling does not fit, a worker trips its budget or its output fails, naming that stage |
| CycleOutcome.ReportExactly | core/orchestration/orchestrator.py:187-252 | The report's cost is the sum of its calls, its outcome tells how the cycle ended, and an aborted cycle reports no candidates |
| CycleOutcome.ProposedEntryExactly | core/orchestration/orchestrator.py:272-402 | Every field of the registry entry of a strategy proposed under one id only, wherever the cycle ended, is what the workers that delivered answered about it: state, run, both evidences and last verdict, with only its creation time older |
| CycleOutcome.StoreWhereReached | core/orchestration/orchestrator.py:256-402 | What a cycle leaves in its store follows from how many of its stages delivered: nothing before the proposal, then the recorded runs, then the triage, then the routing |
| CycleOutcome.TallyWhereReached | core/orchestration/orchestrator.py:256-402 | A completed cycle counts each proposed id once, kills nothing before triage and the rejections after it, and queues nothing before the critic |
| CycleOutcome.QueuedIsDeserved | core/orchestration/orchestrator.py:366-400 | Every entry a cycle queues carries the candidate, the in-sample run, the held-out evidence and the surviving verdict that the workers answered for it |
| CycleOutcome.QueuedExactlyWhen | core/orchestration/orchestrator.py:366-400 | After a routed cycle its queue holds a strategy exactly when it did before or some verdict on it survives |
| CycleOutcome.HeldOutIsStressed | core/orchestration/orchestrator.py:336-375 | The held-out evidence of a candidate is that of its own stressed run, when it survived triage and the holdout was long enough |
| Registry.ChampionChallengerRegistry.UpsertProposed | core/orchestration/registry.py:165-184 | Refreshes the entry to proposed whatever its state, keeping only its creation time |
| Registry.ChampionChallengerRegistry.RecordBacktest | core/orchestration/registry.py:186-193 | Records evidence on an existing entry, or reports that there is none |
| Registry.ChampionChallengerRegistry.RecordCritic | core/orchestration/registry.py:195-213 | Refuses authorised states and missing entries, and otherwise records the review |
| Registry.ChampionChallengerRegistry.SetState | core/orchestration/registry.py:215-219 | Refuses authorised states and missing entries, and otherwise moves the entry |
| Registry.ApprovalQueue.Append | core/orchestration/approval_queue.py:82-116 | Idempotent per cycle and identity: appends a pending entry or leaves the queue alone, and keeps ids unique |

## Left out

- Rounding: `Decimal` to 28 digits and `float` are exact reals, so the resize division and the ratios are exact only in this model; the rounding of reported correlations is not modelled.
- BacktestEngine.BacktestEngine.Run: does not model prices at or below half spread plus slippage, because selling raises there in the source; datetime overflow in the rollover loop is left out too.
- A strategy is deterministic in the calls it receives; one that reads a clock, randomness or files is outside the model.
- Sharpe, Sortino, annualised return, exposure, realized volatility, autocorrelation and variance ratio: roots and powers of floats.
- Shortlist.BuildMatrix: takes the pairwise correlation as a given function, because computing it from returns over common times, and rounding it, needs square roots and floats; reason strings and profile building are left out.
- Price providers answer each account read, each fill and each mark of the book from their own quotes, or from none; within one mark a pair is quoted once. Quote validation and the identity of a position beyond its fields are not modelled.
- Orchestrator.Orchestrator.RunCycle: worker answers and harness results are arbitrary inputs; prompts, retries, run ids, timings, artifact persistence and abort messages are not modelled. Two entry ids are equal exactly when cycle and identity are.
- Registry and queue files, their JSON form and atomic replacement: loading and saving are the identity.
- Reading the current champion from the registry, which depends on the order of entries.
- Configuration hashes, decision ids, logging and rendering.
- HTTP adapters, the language-model client, usage accounting, the API layer, the dashboard and scripts.
- `OutOfSampleAccessError` messages and the downstream rule on repeated holdout access are not modelled; only the count is.
- `EvaluateCaps`, `ChargeFill`, `ChargeLot`, `TradeBar`, `Research`, `Judge`, `Screen` and similar methods are parts of one source method, split for readability.
- Economic flags, decay ratios and thresholds, candidate validation and gap detection would add only easy members.
