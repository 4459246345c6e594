# Verified model of the trading bot's engines

A Dafny model of the parts of the bot that hold state: the simulated and the live
position engine, the two engines for resting post-only entries, the tasks that
share them, the streaming statistics and the DVSLA strategy built on them, the
coverage and drawdown reports, and the file protocols. Objects of the source are
classes with the same fields and loops; what each method does is stated by a
function on values, and the theorems are about those functions over whole runs.

`dafny verify dfyconfig.toml` checks everything.

## The modules

| file | what it models |
|---|---|
| `Prelude.dfy` | sides, coins, options, exact-real sums |
| `Simulator.dfy` | `backtest/simulator.py`: the backtest, its books and its conservation laws |
| `PositionManager.dfy` | `src/execution/position_manager.py`, `src/core/open_position_store.py`, the fee of `src/core/trade_journal.py` |
| `Provenance.dfy`, `SweepProvenance.dfy` | which signal and which prints stand behind every order, position and trade of a backtest and of the sweep |
| `LiveExits.dfy` | when and at what price live positions close, from their marks |
| `Durability.dfy` | what the position file keeps: which records a crash would read back wrong, from recovery on |
| `Lockstep.dfy`, `Pnl.dfy` | both position engines side by side: equal fates, comparable profits |
| `EntryOrders.dfy`, `AggressiveEntry.dfy` | the resting orders of `src/execution/order_router.py` and `scripts/sweep_entry_aggression.py` |
| `RouterProvenance.dfy` | which signal stands behind every live entry, and what is sent to the exchange |
| `EntryBisimulation.dfy` | both order engines side by side |
| `Interleaving.dfy` | the tasks of `src/main.py` cut at their awaits |
| `RollingStatistics.dfy`, `FlowImbalance.dfy`, `OiZScore.dfy`, `VolumeBars.dfy`, `BarPrices.dfy`, `MarketBreadth.dfy` | the streaming trackers |
| `Dvsla.dfy`, `DvslaSpacing.dfy`, `DvslaFiring.dfy`, `DvslaStrategy.dfy` | the DVSLA engine: on values, when it may signal, which bars make it signal and which way, and as objects |
| `Coverage.dfy`, `SessionLog.dfy` | observation coverage and the session files |
| `Metrics.dfy`, `KillSwitch.dfy` | the scorecard's money side and the daily drawdown switch |
| `Recordings.dfy`, `Recorder.dfy`, `Compaction.dfy` | recording, replaying and compacting market events |

## Conventions

Money, prices and statistics are exact reals; clock readings are real seconds, and
whole microseconds in the session log. Coins are the already normalised keys. What
the exchange answers to an order is accepted, rejected or raised. Square root and
the Hurst estimate are arbitrary functions given as parameters. JSON and gzip are
codecs known only by what a text decodes to.

## What the code does not do

Where a claim of the source's comments is not met, the code is modelled as it is:

- A break-even stop costs money with the shipped taker fees (`Pnl.ShippedFeesBreakEvenOnlyForMakers`); a whole life
  breaks even exactly under the inequality of `Pnl.ArmedStopBreaksEvenIff` (`Pnl.ArmedLifeBreaksEvenIff`).
- On the mark that fills a resting entry the live manager already manages the new
  position, the backtest does not; `EntryBisimulation.FillMarkInStepIff` says when that matters.
- The two engines quote the same limit price only for a non-negative offset (`EntryBisimulation.LimitsAgreeIff`).
- A live entry whose order is in flight when the switch trips still opens (`Interleaving.TripDuringEntryStillOpens`).
- Recovery drops a saved coin outside the watchlist and does not adopt it, although the
  exchange holds it (`PositionManagement.PositionManager.RecoverPositions`).
- A session whose clock ran backwards is subtracted from coverage unless a session started
  earlier is still running at its start (`Coverage.CountedIsMeasureIff`).
- With the worker's re-check the drawdown debounce decides as if it were not there
  (`KillSwitches.DebounceChangesNothing`).
- Nothing orders the breadth tracker's timestamps. A move that arrives late is counted after it went stale
  (`MarketBreadth.LateMoveIsOvercounted`), a question about an earlier instant misses moves already pruned
  (`MarketBreadth.EarlierQuestionUndercounts`); `MarketBreadth.CountsHistoryIff` says exactly when the count is right,
  `MarketBreadth.PrunedCountsMoversIff` for a single prune.
- The position file after recovery is not what recovery put in memory when the exchange disagrees. A position rebuilt on the
  other side stays on disk as saved until its own next write, and another coin's write records the old one again; a corrected
  size stays on disk until any write (`Durability.SideMismatchGoesStale`, `Durability.OtherWrites`). Exactly when the file is
  faithful is `Durability.RecoveryIsFaithfulIff`; a coin's next upsert repairs its record (`Durability.UpsertRepairs`).
- With a drawdown limit above 100%, which the configuration accepts, and equity below zero the running high is not the worst
  reference: the switch can stay untripped after a fall by the limit (`KillSwitches.SteepestFallNeedNotBeFromTheHigh`,
  exactly then: `KillSwitches.HighWaterMarkIsPairwiseIff`).
- A day whose compaction died before the last unlink keeps its plain file for ever
  (`Compaction.BothFormsAreLeftAlone`).

## Model

| member | source | states |
|---|---|---|
| Simulator.ExitsConserve | backtest/simulator.py:314-371 | processing one mark's exits keeps: open and pending disjoint, together within the cap, signals = skipped + pending + open + trades, placed = filled + expired + pending |
| Simulator.FillsConserve | backtest/simulator.py:275-312 | the same account is kept by expiring and filling a resting order |
| Simulator.SignalConserves | backtest/simulator.py:194-225 | the same account is kept by a signal, whether skipped, opened or rested |
| Simulator.EventConserves | backtest/simulator.py:161-178 | the same account is kept by any event with any strategy response |
| Simulator.EmptyConserves | backtest/simulator.py:147-154 | the books of a new simulator add up |
| Simulator.RunConserves | backtest/simulator.py:161-178 | the account holds after every run of events that starts with it, as the empty simulator does |
| Simulator.BacktestSimulator.CheckExits | backtest/simulator.py:314-371 | the object's update of one position in place is the value-level exit step: peak, break-even, then bracket, trail, time stop, booking exactly one trade or none |
| Simulator.BacktestSimulator.AdvancePosition | backtest/simulator.py:324-339 | peak and break-even are raised in place, the armed flag never cleared |
| Simulator.BacktestSimulator.DecideExit | backtest/simulator.py:341-367 | the first exit rule that applies, with the price it books |
| Simulator.BacktestSimulator.BookExit | backtest/simulator.py:383-422 | appends one trade with slippage, both fees, net profit and R multiple, and changes nothing else |
| Simulator.BacktestSimulator.OpenPositionAt | backtest/simulator.py:227-273 | adds one position with its bracket, size and entry fee |
| Simulator.BacktestSimulator.CheckPendingFills | backtest/simulator.py:275-312 | a resting order expires by age before it may fill, and fills at its limit |
| Simulator.BacktestSimulator.OpenFromSignal | backtest/simulator.py:194-225 | skips, rests or opens as the cap, the coin's state and the entry mode say |
| Simulator.BacktestSimulator.PriceAndTs | backtest/simulator.py:182-192 | the price an event carries, trades and context updates only |
| Simulator.BacktestSimulator.OnPrice | backtest/simulator.py:161-178 | exits before fills on every priced event |
| Simulator.BacktestSimulator.OnEvent | backtest/simulator.py:161-178 | one event of the loop: price first, then the strategy's signal |
| Simulator.BacktestSimulator.Run | backtest/simulator.py:161-178 | a whole run ends in the state of the event fold, then closes everything: no order or position is left and signals = skipped + trades |
| Simulator.BacktestSimulator.CloseRemaining | backtest/simulator.py:373-381 | every open position is booked once at its last mark, resting orders count as expired and skipped, and then signals = skipped + trades |
| Provenance.OpenedTerms | backtest/simulator.py:227-273 | an entry has its signal's coin and side, the price given, notional min + (max - min) * confidence held to [0, 1], the mode's fee, its target and first stop on the right sides, and no peak but its entry |
| Provenance.SignalIsTakenIff | backtest/simulator.py:194-225 | a signal is taken exactly when its coin is free, the cap leaves room and it has a price; it changes no other coin |
| Provenance.SignalExplained | backtest/simulator.py:194-225 | what a signal leaves on the books is its own order or position, on its own side |
| Provenance.FillsExplained | backtest/simulator.py:275-312 | a resting order is filled, as its signal's position at the print's time, by the first print that touches it inside its timeout |
| Provenance.AdvanceMoves | backtest/simulator.py:324-339 | stop, flag and peak after a print are those of all prints since entry |
| Provenance.ExitIsDue | backtest/simulator.py:341-367 | the exit decided is the first due of stop, target, trail and time stop on the position's terms, stop and peak, at that rule's price; none only if none is due |
| Provenance.BookedPaysOut | backtest/simulator.py:383-422 | a trade's exit price, gross, fees, net and R multiple from its terms and the price it left at |
| Provenance.ExitsExplained | backtest/simulator.py:314-371 | a print closes a position exactly when the prints since its entry make an exit due, and never later |
| Provenance.RunIsExplained | backtest/simulator.py:161-178 | in every state of every run each resting order, open position and booked trade has its signal, the print that filled it and, if closed, the first print that had to close it; the marks are the last prints |
| Provenance.ResultIsExplained | backtest/simulator.py:373-381 | so has every trade of the final result, the positions still open booked at their coin's last print |
| PositionManagement.InitialStopIsOnTheLosingSide | src/execution/position_manager.py:339-358 | the volatility or fixed stop is strictly on the losing side of a positive entry |
| PositionManagement.RecoveredMatchesExchange | src/execution/position_manager.py:168-296 | each recovered position has the exchange's side and a size within 0.1% of it; rebuilt or adopted ones start unarmed at the entry with a stop on the losing side |
| PositionManagement.RecoveredIsSavedOrHeld | src/execution/position_manager.py:214-296 | field by field: as saved but for a drifted size on the same side; on the other side rebuilt at the exchange's entry, or the saved one if it gives none, keeping the opening time; adopted as the exchange has it, opened now |
| PositionManagement.OpenPositionStore.Load | src/core/open_position_store.py:85-112 | fresh objects equal to the file's records; an unreadable file reads as empty |
| PositionManagement.OpenPositionStore.Upsert | src/core/open_position_store.py:114-125 | the store's map takes the shared object and the file equals the map |
| PositionManagement.OpenPositionStore.Remove | src/core/open_position_store.py:127-141 | the key leaves map and file; an unknown key leaves the file untouched |
| PositionManagement.PositionManager.RegisterPosition | src/execution/position_manager.py:298-312 | adds the position with its peak seeded at the entry, in memory and on disk |
| PositionManagement.PositionManager.RemovePosition | src/execution/position_manager.py:314-319 | removes it from memory, store and the peak debounce |
| PositionManagement.PositionManager.MaybePersistPosition | src/execution/position_manager.py:321-329 | writes at most once per five seconds and coin |
| PositionManagement.PositionManager.UpdatePeak | src/execution/position_manager.py:390-397 | peak raised in place, seen by the store through the shared object |
| PositionManagement.PositionManager.MaybeMoveToBreakEven | src/execution/position_manager.py:399-430 | stop and flag change together or not at all, and then reach the file |
| PositionManagement.PositionManager.DecideExit | src/execution/position_manager.py:603-623 | hard stop unless within min-hold, then reversion target, trail, time stop |
| PositionManagement.PositionManager.RequestExit | src/execution/position_manager.py:494-522 | journals, then leaves management only on an accepted order |
| PositionManagement.PositionManager.NoteMark | src/execution/position_manager.py:556-580 | the first mark after a feed gap is not usable |
| PositionManagement.PositionManager.ManageMark | src/execution/position_manager.py:551-623 | one fresh mark on the shared objects is the value-level mark step |
| PositionManagement.PositionManager.OnPriceUpdate | src/execution/position_manager.py:551-623 | panic while tripped, nothing after a gap, else the mark step |
| PositionManagement.PanicRows | src/execution/position_manager.py:524-549 | a panic journals one row per position: at its mark if the switch has one, else at a non-zero peak, else at the entry, with the profit and fees of that price by side |
| PositionManagement.PositionManager.PanicCloseAll | src/execution/position_manager.py:524-549 | requests every exit once, in some order, and journals those rows, whatever the exchange answers |
| LiveExits.DecisionIsDue | src/execution/position_manager.py:603-623 | the exit decided is the first due of hard stop outside min-hold, reversion in profit, trail and horizon, at the mark; none only if none is due |
| LiveExits.MarkActs | src/execution/position_manager.py:551-623 | one fresh mark raises the peak, arms break-even a tenth of a percent beyond entry, and if an exit is due journals it at the mark; the position leaves exactly if the exit is accepted |
| LiveExits.LiveClosesAtFirstDueMark | src/execution/position_manager.py:551-623 | a new position lives until the first mark that has a reason to close it, judged on all its marks, and is then what those marks made it |
| LiveExits.LiveBooksAreExplained | src/execution/position_manager.py:494-623 | so do the books: open as the marks made it, or gone with one row at that mark |
| PositionManagement.PositionManager.Reconcile | src/execution/position_manager.py:214-248 | a side mismatch is rebuilt as a new object, a size mismatch corrected in place |
| PositionManagement.PositionManager.AdoptOrphans | src/execution/position_manager.py:250-296 | adopts exactly the exchange coins not saved with a positive entry |
| PositionManagement.RecoveredSet | src/execution/position_manager.py:168-296 | the managed set is {saved, allowed and on the exchange} and {on the exchange, not saved, entry > 0}, each as reconciled or adopted; the store's keys equal it |
| PositionManagement.RecoveredCoins | src/execution/position_manager.py:168-296 | coin by coin: a saved one is managed exactly if allowed and, where the exchange answered, held; another exactly if held with an entry price above zero |
| PositionManagement.RestoredAllFacts | src/execution/position_manager.py:186-212 | after any part of the file: which saved coins are managed, dropped, still to come, and which share their object with the store |
| PositionManagement.PositionManager.RestoreOne | src/execution/position_manager.py:186-212 | one saved coin is dropped from store and file, rebuilt in memory only, or corrected on the shared object |
| PositionManagement.PositionManager.AdoptOne | src/execution/position_manager.py:250-296 | one exchange coin is adopted and written exactly when it is not saved and has an entry price |
| PositionManagement.PositionManager.RecoverPositions | src/execution/position_manager.py:168-212 | memory, store, shared objects and file after startup, exactly; without an exchange answer a live bot does not start and nothing changes |
| Durability.ManagersAreCoherent | src/execution/position_manager.py:298-329 | in every state of the manager memory and store agree on the positions whose object they share |
| Durability.NothingStaleIff | src/core/open_position_store.py:114-141 | a crash loses only peaks if and only if no record is stale: lost, altered or come back |
| Durability.WrittenLeaves | src/core/open_position_store.py:114-141 | a write of the file leaves stale exactly the positions whose object the store lacks and those without a peak |
| Durability.UpsertRepairs | src/core/open_position_store.py:114-125 | an upsert puts its own coin's record right and every other but those |
| Durability.RegisterIsDurable | src/execution/position_manager.py:298-312 | registering makes no record stale and puts its coin's right |
| Durability.RegisterSeedsPeak | src/execution/position_manager.py:298-312 | a registered position is recorded as given, its peak the entry if it had none, and no other coin is touched |
| Durability.RemoveIsDurable | src/execution/position_manager.py:314-319 | removing makes none stale, and none of the removed coin is left |
| Durability.PeakIsDurable | src/execution/position_manager.py:390-397 | a debounced peak update makes none stale: the recorded peak is never ahead of the real one |
| Durability.PeakLagsAtMostFiveSeconds | src/execution/position_manager.py:321-329 | a new peak is written at once unless the coin's last one was less than five seconds ago, and then the file is left alone |
| Durability.BreakEvenIsDurable | src/execution/position_manager.py:399-430 | arming break-even makes none stale and has the moved stop on disk at once |
| Durability.ExitIsDurable | src/execution/position_manager.py:494-522 | an exit makes none stale, and an accepted one leaves none of its coin |
| Durability.MarkIsDurable | src/execution/position_manager.py:551-623 | nor does a whole fresh mark, whatever the exit order answers |
| Durability.PanicIsThorough | src/execution/position_manager.py:524-549 | whatever order positions come in and whichever exits fail, exactly the accepted ones leave, no record goes stale, and one row each is journalled at its mark, else its peak, else its entry |
| Durability.RunsAreDurable | src/execution/position_manager.py:298-623 | over any sequence of registrations, marks, exits and panics no record goes stale |
| Durability.FaithfulRunsLoseOnlyPeaks | src/execution/position_manager.py:298-623 | from a faithful start a crash at the end of any such sequence loses only peaks |
| Durability.StaleAfterRecovery | src/execution/position_manager.py:168-248 | after recovery the stale records are exactly: kept coins rebuilt, without a peak, or resized with no write since; and all of an unreadable file nothing rewrote |
| Durability.RecoveryIsFaithfulIff | src/execution/position_manager.py:168-248 | recovery leaves a faithful file if and only if the file was readable, empty or rewritten by an adoption, and no kept coin is one of those |
| Durability.RecoveredRunsAreDurable | src/execution/position_manager.py:168-623 | from any recovery, any sequence of acts leaves stale at most what recovery left stale |
| Durability.OtherWrites | src/core/open_position_store.py:114-125 | another coin's write records a rebuilt coin's old object again, and a resized coin's new size |
| Durability.SideMismatchGoesStale | src/execution/position_manager.py:227-248 | a long the exchange holds short is still a long on disk after recovery and after another coin's registration, until its own write |
| Lockstep.AdvanceInStep | backtest/simulator.py:324-339 | one positive mark leaves equal peak, stop and armed flag on both engines |
| Lockstep.ExitInStep | backtest/simulator.py:341-367 | and both decide the same exit or none, live at the mark, backtest at the stop for stops |
| Lockstep.OpenedInStepIff | backtest/simulator.py:227-273 | a pair opened together is in step if and only if both initial stops are at the same distance |
| Lockstep.EnginesInLockstep | src/execution/position_manager.py:551-623 | on every sequence of positive marks both positions stay equal and close at the same mark with the matching reason |
| Lockstep.HistoryStep | backtest/simulator.py:324-339 | the incremental peak, stop and flag are those defined from the whole price history |
| Lockstep.ClosesAtFirstDueMark | backtest/simulator.py:314-371 | a position closes at the first mark due by that definition, and stays open exactly while none is |
| Lockstep.SimBooksFollowFate | backtest/simulator.py:314-371 | the backtest's books after the marks are decided by the position's fate alone |
| Lockstep.LiveBooksFollowFate | src/execution/position_manager.py:551-623 | so are the live books and journal when exits are accepted |
| Pnl.OpenedIsWellPriced | backtest/simulator.py:227-273 | every position the simulator opens at a positive price meets the pricing assumptions below, its entry fee being the mode's rate of the notional |
| Pnl.BookedNet | backtest/simulator.py:383-403 | a booked long nets notional * (x/entry * (1-s) * (1-t) - 1 - e), a short the mirror form |
| Pnl.NetGap | src/core/trade_journal.py:25-45 | without slippage backtest and journal differ by the exit-price difference net of the taker rate |
| Pnl.BacktestNeverReportsLess | src/execution/position_manager.py:488-492 | a slippage-free backtest never nets less than the journal, and equals it unless a stop was overshot |
| Pnl.BooksAgree | src/execution/position_manager.py:551-623 | over whole mark sequences: same close or still open, matching reason, backtest net >= journal net, equal for all but stops |
| Pnl.ArmedStopBreaksEvenIff | backtest/simulator.py:383-403 | an exit at the break-even stop is not a loss if and only if (1+b)(1-s)(1-t) >= 1+e, for shorts (1-b)(1+s)(1+t) <= 1-e |
| Pnl.ArmedStop | backtest/simulator.py:328-339 | once triggered the stop sits exactly one fee buffer beyond the entry |
| Pnl.ArmedLifeBreaksEvenIff | backtest/simulator.py:227-403 | a position followed from its opening over any marks and stopped out after arming is booked without a loss if and only if that inequality holds of the settings |
| Pnl.ShippedFeesBreakEvenOnlyForMakers | backtest/simulator.py:45-47 | with the default fees the armed stop wins on a maker entry and loses on a taker entry |
| EntryOrders.OrderRouter.RouteEntry | src/execution/order_router.py:146-255 | the object's route step, with the order it sends, is the value-level one the theorems below are about |
| EntryOrders.OrderRouter.OnMark | src/execution/order_router.py:288-344 | so is its mark step: arrival, rejection, expiry and fill of one resting order |
| EntryOrders.OrderRouter.Age | src/execution/order_router.py:298-336 | the order's own share of a mark, true exactly when it fills |
| EntryOrders.OrderRouter.OpenPosition | src/execution/order_router.py:273-286 | registers the position with its peak at the entry and its initial stop |
| EntryOrders.OrderRouter.RouteExit | src/execution/order_router.py:346-381 | so is its exit step: removal and cooldown only on an accepted order |
| RouterProvenance.EntryIsSentIff | src/execution/order_router.py:146-227 | an order is sent exactly for a signal that passes every gate; it buys exactly for a long, never reduces, is post-only at the quote or gives way by the slippage; unaccepted it changes nothing |
| RouterProvenance.ExitClosesItsPosition | src/execution/order_router.py:346-381 | an exit order is on the other side of its position, of its size and reduce-only; accepted it takes the position out and starts the cooldown, else nothing changes |
| RouterProvenance.EntersAsItsSignal | src/execution/order_router.py:273-286 | a position entered has its signal's coin and side, this price and size, no armed stop, its peak at the entry and its first stop the settings' distance against it |
| RouterProvenance.RunIsExplained | src/execution/order_router.py:146-344 | in every run of routes, marks, exits and position management each resting order is that of an admitted signal, on its side at its quote, and no mark since had to end it |
| RouterProvenance.EntriesAreTheirSignals | src/execution/order_router.py:146-344 | every position that appears is the one of an admitted signal: at its mark at once, or at its quote by the first mark after the one it arrived on that touches it in time |
| RouterProvenance.EntryStopLoses | src/execution/order_router.py:273-286 | its stop is strictly on the losing side of the signal's own side |
| AggressiveEntry.QuotedLimitIsPositive | scripts/sweep_entry_aggression.py:103-104 | the quoted limit of a positive mark is positive for offsets within 10000 bps |
| AggressiveEntry.PendingOnlyShrinks | scripts/sweep_entry_aggression.py:129-167 | a mark never adds or alters another coin's order |
| AggressiveEntry.SignalKeepsAccount | scripts/sweep_entry_aggression.py:90-127 | a signal keeps the ledger: placed = filled + expired + rejected + pending, signals = skipped + pending + open + trades, within the cap |
| AggressiveEntry.FillsKeepAccount | scripts/sweep_entry_aggression.py:129-167 | so does a mark's fill check in both crossing modes, chased orders counting as filled |
| AggressiveEntry.RunKeepsAccount | scripts/sweep_entry_aggression.py:90-167 | so does every run of events with exits, fills and signals, in both modes |
| AggressiveEntry.AggressiveEntrySimulator.Run | backtest/simulator.py:161-178 | a whole run ends in that fold and closes its books: signals = skipped + trades and placed = filled + expired + rejected |
| AggressiveEntry.AggressiveEntrySimulator.OnEvent | backtest/simulator.py:161-178 | one event of the inherited loop on the objects, with the overridden entry steps |
| AggressiveEntry.AggressiveEntrySimulator.OpenFromSignal | scripts/sweep_entry_aggression.py:90-115 | skips as the cap and the coin's state say, otherwise an unarrived order rests at the offset limit |
| AggressiveEntry.AggressiveEntrySimulator.CheckPendingFills | scripts/sweep_entry_aggression.py:129-167 | first mark decides arrival, rejection or chase; later ones expiry and fill |
| AggressiveEntry.AggressiveEntrySimulator.Arrive | scripts/sweep_entry_aggression.py:139-165 | a crossing arrival is rejected or chased, others become resting |
| SweepProvenance.QuoteChased | scripts/sweep_entry_aggression.py:117-165 | a chased order opens its signal's position at the first print, through which its quote went, at that print's time and as a taker |
| SweepProvenance.QuoteFills | scripts/sweep_entry_aggression.py:129-167 | a resting one at its quote, at the time of the touching print, as a maker |
| SweepProvenance.SweepIsExplained | scripts/sweep_entry_aggression.py:90-167 | in every state of every run, in both modes, each order, position and trade has its signal, its quote, the print that filled or chased it and the print that closed it |
| EntryBisimulation.SweepOutcomeIsBooked | scripts/sweep_entry_aggression.py:129-167 | the outcome compared below is the one the sweep's counters and books record |
| EntryBisimulation.MarksAgree | src/execution/order_router.py:288-344 | with the same orders both engines report the same outcome on a mark and keep the same orders |
| EntryBisimulation.LimitsAgreeIff | src/execution/order_router.py:257-262 | both quote the same limit if and only if the offset is not negative |
| EntryBisimulation.StepsAgree | scripts/sweep_entry_aggression.py:90-167 | one signal or mark keeps the two engines bisimilar with equal outcomes |
| EntryBisimulation.RunsAgree | src/execution/order_router.py:257-344 | so do whole event sequences: unarrived, resting, rejected, expired or filled at the same limit, mark by mark |
| EntryBisimulation.OrderFate | src/execution/order_router.py:288-344 | an order's whole life over any marks: rejected exactly when the first mark crosses, else the first later mark that is too late or touches decides |
| EntryBisimulation.FillMarkInStepIff | src/execution/order_router.py:336-344 | managing the filling mark, which only the live side does, changes the outcome exactly when the mark is beyond the stop or the trail |
| Interleaving.StepKeepsInv | src/main.py:405-434 | every step of every task between two awaits keeps the invariant |
| Interleaving.ReachableStatesAreSafe | src/execution/order_router.py:146-381 | under every interleaving no coin is both resting and open, and the store equals the positions once its queue is drained |
| Interleaving.PositionsAreNeverOverwritten | src/execution/position_manager.py:298-319 | an open position stays the same until the step that accepts its own exit |
| Interleaving.RestingFillsAreHonest | src/execution/order_router.py:288-344 | a resting entry opens only at its limit, untripped, after a non-crossing first mark, on a later fresh mark that touches it before its timeout |
| Interleaving.OtherStepsOpenOnlyAcceptedEntries | src/execution/order_router.py:146-255 | any other position opens only by an accepted live order for that signal, on its side at its mark |
| Interleaving.SignalsAreCarried | src/execution/order_router.py:146-255 | a signal keeps its task unchanged from its checks, passed untripped, to the exchange's answer |
| Interleaving.OrdersAreTheirSignals | src/execution/order_router.py:229-255 | an order that starts to rest is the answered signal's, on its side, at its quote and in its size; one that rests on has at most arrived |
| Interleaving.OpensWhileTrippedIff | src/execution/order_router.py:146-255 | while tripped a position opens if and only if such an order was already in flight |
| Interleaving.TripDuringEntryStillOpens | src/execution/order_router.py:146-255 | and that happens: a concrete run |
| RollingStatistics.DeviationsExpand | src/strategy/microstructure/rolling_stats.py:113-136 | two-pass squared deviations expand to the running-sums form about any centre |
| RollingStatistics.RunningSumsAreTwoPass | src/strategy/microstructure/rolling_stats.py:113-123 | sum of squares over n less the squared mean is the mean squared deviation |
| RollingStatistics.ClampedFormIsTwoPass | src/strategy/microstructure/rolling_stats.py:113-123 | so the clamp at zero never acts and the result is the two-pass sample variance |
| RollingStatistics.WelfordStep | src/strategy/microstructure/rolling_stats.py:62-67 | one Welford update is exact: mean and second moment of the extended history |
| RollingStatistics.Welford.Update | src/strategy/microstructure/rolling_stats.py:62-67 | mean is the sum over n and m2 the squared deviations of everything fed |
| RollingStatistics.Welford.Extend | src/strategy/microstructure/rolling_stats.py:69-71 | so too after a batch |
| RollingStatistics.Welford.Variance | src/strategy/microstructure/rolling_stats.py:50-56 | the two-pass sample variance of the history |
| RollingStatistics.RollingStats.Update | src/strategy/microstructure/rolling_stats.py:129-136 | deque and both sums are those of the last `window` values |
| RollingStatistics.RollingStats.CurrentMean | src/strategy/microstructure/rolling_stats.py:107-111 | mean of the last `window` values of the history |
| RollingStatistics.RollingStats.Variance | src/strategy/microstructure/rolling_stats.py:113-123 | their two-pass sample variance |
| RollingStatistics.RollingStats.Score | src/strategy/microstructure/rolling_stats.py:16-25 | the z-score against that window |
| RollingStatistics.ClampedScoreIs | src/strategy/microstructure/rolling_stats.py:16-25 | a clamped score times the deviation is the distance from the window's mean, and at the clamp no more than that distance |
| RollingStatistics.AgreeUntilEviction | src/strategy/microstructure/rolling_stats.py:28-143 | both trackers report one mean and variance until the first eviction |
| FlowImbalance.ImbalanceIsBounded | src/strategy/microstructure/flow_imbalance.py:40-49 | imbalance lies in [-1, 1] for non-negative sizes |
| FlowImbalance.FlowImbalanceTracker.Update | src/strategy/microstructure/flow_imbalance.py:88-104 | deques and sums are those of the last `window` trades |
| FlowImbalance.FlowImbalanceTracker.Imbalance | src/strategy/microstructure/flow_imbalance.py:102-104 | the imbalance of exactly those trades |
| OiZScore.RepeatsAreInvisible | src/strategy/microstructure/oi_zscore.py:75-107 | a stream and the stream without repeated readings end in the same state |
| OiZScore.WindowIsNonZeroChanges | src/strategy/microstructure/oi_zscore.py:75-107 | the window holds the last non-zero changes, in order |
| OiZScore.ScoreIsClamped | src/strategy/microstructure/oi_zscore.py:75-107 | every score lies within the clamp, whatever the square root does |
| OiZScore.ScoreIsOfTheLastChange | src/strategy/microstructure/oi_zscore.py:75-107 | the score is that of the last non-zero change of the stream against the window of changes before it |
| OiZScore.OIZScoreTracker.Update | src/strategy/microstructure/oi_zscore.py:75-107 | the object's state is the fold over every reading, the score taken before the change is added |
| VolumeBars.AbsorbCounts | src/strategy/microstructure/volume_bars.py:100-165 | one trade completes as many bars as the threshold fits into partial plus size |
| VolumeBars.AbsorbConserves | src/strategy/microstructure/volume_bars.py:100-165 | bars and partial gain exactly the trade, on its own side, with coherent price ranges |
| VolumeBars.BarsConserve | src/strategy/microstructure/volume_bars.py:100-165 | over any trades: every bar holds exactly the threshold, their number is the floor of traded size over threshold, and bars plus partial conserve each side's volume |
| BarPrices.BarsDescribeTheirTrades | src/strategy/microstructure/volume_bars.py:100-165 | over any trades bar k opens and closes at the first and last trade with volume between k and k + 1 thresholds, with their times, their highest and lowest price and their number; so does the bar in progress |
| BarPrices.AggregatorDescribesItsTrades | src/strategy/microstructure/volume_bars.py:100-165 | so do the aggregator object's bars, whatever it was fed |
| VolumeBars.CountIsInert | src/strategy/microstructure/volume_bars.py:100-165 | the trade count feeds into nothing else |
| VolumeBars.CutInTwo | src/strategy/microstructure/volume_bars.py:100-165 | a trade cut in two gives the same bars but for trade counts |
| VolumeBars.CutsAreInvisible | src/strategy/microstructure/volume_bars.py:100-165 | so does a trade cut into any number of consecutive pieces |
| VolumeBars.VolumeBarAggregator.Update | src/strategy/microstructure/volume_bars.py:100-165 | the object's completed bars and partial are those of all trades fed |
| VolumeBars.VolumeBarAggregator.Consume | src/strategy/microstructure/volume_bars.py:112-165 | the loop terminates and its bars are the recursive definition's |
| MarketBreadth.PrunedIsSuffix | src/strategy/market_breadth.py:43-46 | pruning drops the leading stale marks and nothing else, in whatever order marks came |
| MarketBreadth.PrunedCountsMoversIff | src/strategy/market_breadth.py:43-62 | one prune of any marks counts the fresh movers if and only if every matching stale mark behind a fresh one is of a coin that has a fresh one |
| MarketBreadth.DequeIsSuffix | src/strategy/market_breadth.py:39-62 | after any records and questions the deque is the history less its first moves |
| MarketBreadth.CountsHistoryIff | src/strategy/market_breadth.py:39-62 | on any sequence of records and questions the coins counted are those of the whole history if and only if no stale mark left in the deque and no fresh one gone from it changes the set |
| MarketBreadth.InOrderCountsHistory | src/strategy/market_breadth.py:39-62 | in particular they are when the calls come in time order |
| MarketBreadth.LateMoveIsOvercounted | src/strategy/market_breadth.py:39-62 | a run of the tracker in which a late move is counted although stale |
| MarketBreadth.EarlierQuestionUndercounts | src/strategy/market_breadth.py:39-62 | a run of the tracker in which a question about an earlier instant misses a move already pruned |
| MarketBreadth.MarketBreadthTracker.Record | src/strategy/market_breadth.py:39-41 | appends the move, then prunes at its time, whatever the order of calls |
| MarketBreadth.MarketBreadthTracker.CountSameSide | src/strategy/market_breadth.py:48-62 | off from the distinct other coins of the whole history by those only stale marks speak for less those whose fresh marks are gone; equal when calls came in order |
| MarketBreadth.MarketBreadthTracker.IsSynchronized | src/strategy/market_breadth.py:64-75 | true exactly when that count reaches a positive limit; a limit of zero neither counts nor prunes |
| Dvsla.Confidence | src/strategy/dvsla.py:467-480 | confidence lies in [0, 1] after rounding |
| Dvsla.ConfidenceExtremes | src/strategy/dvsla.py:467-480 | before rounding it is full exactly at twice every trigger with the regime fully reverting, and nil exactly when nothing speaks for the trade |
| Dvsla.ConfidenceIsRounded | src/strategy/dvsla.py:480 | what is reported is that confidence to within half a ten-thousandth |
| Dvsla.ConfidenceGrows | src/strategy/dvsla.py:467-480 | more of anything that speaks for the trade never lowers it |
| Dvsla.RoundsToNearest | src/strategy/dvsla.py:480 | rounding moves it by at most half a ten-thousandth |
| Dvsla.StepKeepsSettled | src/strategy/dvsla.py:258-275 | every event leaves each coin's bar in progress below its threshold |
| Dvsla.EventSignalsOwnCoin | src/strategy/dvsla.py:206-223 | an event signals only its own coin |
| Dvsla.CoinsDoNotInterfere | src/strategy/dvsla.py:206-380 | on any interleaved stream a coin's state and signals are those of its own events alone, when no breadth tracker is attached |
| DvslaSpacing.CloseEmits | src/strategy/dvsla.py:299-380 | one bar emits nothing, or one signal on this bar after warm-up, cooldown and the regime gate's 16 lead-up returns |
| DvslaSpacing.CloseIsSpaced | src/strategy/dvsla.py:277-380 | one bar keeps the signals spaced and remembers the last |
| DvslaSpacing.BarsAreSpaced | src/strategy/dvsla.py:258-275 | also when one trade closes many bars |
| DvslaSpacing.RunFollows | src/strategy/dvsla.py:206-380 | along every run the bar counter is the number of bars of the coin's trades and its signals are spaced |
| DvslaSpacing.SignalBudget | src/strategy/dvsla.py:258-302 | per coin no signal fires before bar max(warmup, 17), signals are max(1, cooldown) bars apart, and N bars yield at most 1 + (N - first) / gap of them |
| DvslaFiring.GatesIff | src/strategy/dvsla.py:299-416 | the engine's gates on its trackers are the gates on the coin's bars, trades and readings: a return that deviates by the trigger from the window before it, flow that leans the same way, no veto, a reverting lead-up, warm and cooled down |
| DvslaFiring.BarFiresIff | src/strategy/dvsla.py:277-380 | a bar fires exactly when it meets them in one direction and the market does not move along; a fall is bought and a rise sold, the other way round inverted, at the mark and with the confidence of that evidence |
| DvslaFiring.BarsFireByTheirHistory | src/strategy/dvsla.py:206-380 | so does every bar of every run, with or without the breadth guard, judged on the events up to the trade that completed it |
| DvslaFiring.EverySignalIsCaused | src/strategy/dvsla.py:206-380 | and no signal comes from anything else |
| DvslaFiring.OiZIsOfTheLastChange | src/strategy/dvsla.py:206-221 | the open-interest score the gates see is that of the last change of the coin's readings, repetitions apart, within ten deviations |
| DvslaObjects.SymbolState.Feed | src/strategy/dvsla.py:265-269 | a trade reaches flow window, first mark and bar in progress, and the completed bars come back |
| DvslaObjects.SymbolState.CountBar | src/strategy/dvsla.py:284-297 | the return is scored against the window before it, then counted, on the tracker objects |
| DvslaObjects.SymbolState.ConfirmCascade | src/strategy/dvsla.py:299-343 | all gates up to the breadth guard on the tracker objects |
| DvslaObjects.SymbolState.Regime | src/strategy/dvsla.py:402-410 | the regime is read from the lead-up, without the bar just added |
| DvslaObjects.DvslaStrategy.Emit | src/strategy/dvsla.py:418-465 | side by direction and invert, entry at the mark or the close, cooldown restarted, callback fed once |
| DvslaObjects.DvslaStrategy.Record | src/strategy/dvsla.py:345-350 | the cascade is recorded with the breadth tracker, if there is one |
| DvslaObjects.DvslaStrategy.InStepWithMarket | src/strategy/dvsla.py:359-369 | the guard answers from the deque the record left, which asking again does not change |
| DvslaObjects.DvslaStrategy.OnBarClose | src/strategy/dvsla.py:277-380 | the object's bar step is the engine's, breadth tracker included |
| DvslaObjects.DvslaStrategy.OnTrade | src/strategy/dvsla.py:258-275 | every completed bar is closed in order and the last signal returned |
| DvslaObjects.DvslaStrategy.StateFor | src/strategy/dvsla.py:247-256 | a coin's trackers are created once, apart from every other coin's |
| DvslaObjects.DvslaStrategy.OnMarketEvent | src/strategy/dvsla.py:206-223 | one event moves the objects, with the breadth tracker, as one engine step and leaves other coins' trackers alone; all events together are the engine's run |
| Coverage.CoveragePct | src/core/session_log.py:184-202 | the sort-and-merge loop computes the report analysed below |
| Coverage.MergedCoversTheSamePoints | src/core/session_log.py:193-199 | the merged list is sorted, strictly separated and covers exactly the instants the sessions cover |
| Coverage.NeverAboveOneHundred | src/core/session_log.py:184-202 | the report never exceeds 100, even for sessions that end before they start |
| Coverage.LengthIsMeasureIff | src/core/session_log.py:200 | separated intervals add up to the measure of their union exactly when none runs backwards |
| Coverage.CountedIsMeasureIff | src/core/session_log.py:193-200 | the time counted is the measure of the union if and only if every backward session starts while an earlier one runs; otherwise less |
| Coverage.ReportIsShareOfUnion | src/core/session_log.py:184-202 | then the report is that measure over the whole span, within [0, 100] |
| Coverage.EmptyReports | src/core/session_log.py:191-202 | no sessions report zero, one of no length reports 100 |
| Coverage.OrderDoesNotMatter | src/core/session_log.py:184-202 | no reordering changes the report, whatever the sessions |
| Coverage.SameSessionsSameReport | src/core/session_log.py:184-202 | nor does repetition, under the condition above |
| Coverage.BackwardSessionBreaksTheReport | src/core/session_log.py:184-202 | a lone backward session makes the report negative, and its duplicate makes it worse |
| SessionLog.LoadSessions | src/core/session_log.py:152-181 | the readable log lines and the run in flight, sorted by start |
| SessionLog.ByStartSorts | src/core/session_log.py:181 | that sort orders by start, loses and invents nothing and keeps ties in recording order |
| SessionLog.StepKeepsInv | src/core/session_log.py:80-149 | every file step, call, boot and crash keeps the invariant |
| SessionLog.EveryRunIsRecorded | src/core/session_log.py:80-181 | at every crash point of every history log and marker together record the last completed marker of every run, and nothing else |
| SessionLog.MarkedRunsAreNeverLost | src/core/session_log.py:80-149 | a run whose first marker write completed is on record at every later point |
| SessionLog.RunsAreTheirActions | src/core/session_log.py:80-149 | every run that comes on record is that of a process in the history: its configuration, its boot time, the time of the touch or end its marker was written for, clean exactly for an end |
| SessionLog.ProtocolProgresses | src/core/session_log.py:80-149 | whatever the last process left, one that is let work gets its predecessor into the log, its own marker on disk, and at its end its run into the log |
| SessionLog.SpansAreRunningTimes | src/core/session_log.py:184-202 | what coverage counts of a session is the time from its start to when it was last seen |
| SessionLog.DuplicatesDoNotChangeCoverage | src/core/session_log.py:121-202 | the duplicates a crash leaves between append and unlink do not change coverage |
| SessionLog.SessionTracker.RecordsEveryRun | src/core/session_log.py:80-149 | the tracker object is always in a state the step theorems speak of |
| SessionLog.SessionTracker.WriteState | src/core/session_log.py:108-119 | write-then-replace takes the three file steps of the protocol and leaves the marker whole |
| SessionLog.SessionTracker.RollOverStaleState | src/core/session_log.py:121-149 | a leftover marker is appended before it is unlinked; one that does not parse is dropped |
| SessionLog.SessionTracker.Touch | src/core/session_log.py:87-90 | the run's marker carries the new time |
| SessionLog.SessionTracker.Begin | src/core/session_log.py:80-85 | the previous run reaches the log before this one is marked |
| SessionLog.SessionTracker.Finish | src/core/session_log.py:92-96 | a clean exit leaves exactly one more log line and no marker |
| Metrics.MaxDrawdown | backtest/metrics.py:58-67 | the one-pass result is the maximum of earlier less later equity over all pairs, the curve starting at zero |
| Metrics.ComputeMetrics | backtest/metrics.py:82-133 | every money field, count and breakdown is the one defined over the list of trades |
| Metrics.ProfitMinusLossIsNet | backtest/metrics.py:102-107 | gross profit less gross loss is the net result and neither is negative |
| Metrics.FallWithinLosses | backtest/metrics.py:109-110 | equity cannot fall between two points by more than the losses booked |
| Metrics.ReportAddsUp | backtest/metrics.py:94-130 | drawdown is between zero and gross loss; averages recombine into the net |
| Metrics.ProfitFactorAboveOneIff | backtest/metrics.py:117-120 | a finite profit factor exceeds one if and only if money was made |
| KillSwitches.CheckTripsIff | src/risk/kill_switch.py:157-197 | a check trips exactly when the equity lost the limit from the day's high, and answers so |
| KillSwitches.RaisesIff | src/risk/kill_switch.py:157-170 | a check raises exactly on a mark that is not positive, and then changes nothing |
| KillSwitches.TripIsReported | src/risk/kill_switch.py:107-197 | a trip reports the percentage lost from the day's high to the equity last seen, at least the limit, with the day's first equity (the current one if zero), the high and the mark |
| KillSwitches.DayIsKept | src/risk/kill_switch.py:68-105 | the reference is dated by the last check and starts from the day's first equity; a reason stands exactly while the switch is tripped |
| KillSwitches.TrippedIffSomePairLoses | src/risk/kill_switch.py:157-207 | over any stream of checks the switch is tripped if and only if, since the date last changed, some equity fell by the limit from an earlier one |
| KillSwitches.DebounceChangesNothing | src/main.py:101-143 | a re-check that sees the same equity decides as the check without one |
| KillSwitches.LosesFromHigher | src/risk/kill_switch.py:57-61 | a loss from some equity is a loss from any higher one, for limits up to 100% or equities not below zero |
| KillSwitches.HighStandsForAllIff | src/risk/kill_switch.py:57-61 | the high stands for every lower reference if and only if the limit is at most 100% or the equity is not below zero |
| KillSwitches.HighWaterMarkIsPairwiseIff | src/risk/kill_switch.py:93-197 | the running high trips as the pairwise definition on every undisturbed stream if and only if the limit is at most 100% |
| KillSwitches.SteepestFallNeedNotBeFromTheHigh | src/risk/kill_switch.py:93-197 | for every higher limit and negative equity, a stream of checks after which the switch is untripped although some pair lost the limit |
| KillSwitches.TripsOnlyOnALoss | src/risk/kill_switch.py:93-197 | whatever the limit and the equities, it never trips without such a pair |
| KillSwitches.KillSwitch.UpdateMarkPrice | src/risk/kill_switch.py:63-66 | records a positive mark, raises on others |
| KillSwitches.KillSwitch.ResetDailyState | src/risk/kill_switch.py:68-91 | a new date resets the reference and unlocks |
| KillSwitches.KillSwitch.UpdateHighWaterMark | src/risk/kill_switch.py:93-105 | the reference is the running maximum of the day |
| KillSwitches.KillSwitch.ConfirmDrawdownTrip | src/risk/kill_switch.py:107-155 | after the debounce trips on the re-checked equity only |
| KillSwitches.KillSwitch.CheckDrawdown | src/risk/kill_switch.py:157-197 | one check is the value-level check, raising on a mark that is not positive, and extends the stream the theorems speak of |
| KillSwitches.KillSwitch.Trip | src/risk/kill_switch.py:199-207 | the first reason is kept |
| KillSwitches.KillSwitch.Reset | src/risk/kill_switch.py:209-217 | unlocks and forgets the reason, keeping the day's reference |
| KillSwitches.KillSwitch.AssertCanTrade | src/risk/kill_switch.py:219-222 | unless tripped or reset by hand, trading is refused if and only if some equity of the day fell by the limit from an earlier one |
| Recordings.RecordingFiles | backtest/recording_paths.py:35-68 | one path per selected date in date order, the plain file where both forms exist |
| Recordings.FilesAreSelected | backtest/recording_paths.py:35-68 | a file is read exactly when its date is within the bounds and not left out and, for an archive, has no plain file |
| Recordings.AscendingListsAll | backtest/recording_paths.py:68 | every date once, in increasing order |
| Recordings.ReplayFile | backtest/replay.py:79-107 | the events of the lines that parse, in order, and the number that do not |
| Recordings.BadLinesAreCounted | backtest/replay.py:79-107 | the number skipped is that of the lines that neither parse nor are blank |
| Recordings.ReplayDirectory | backtest/replay.py:110-126 | all days in date order, each in its own order |
| Recordings.BadLinesAreInvisible | backtest/replay.py:79-107 | a torn or blank line anywhere in a file does not change the replay |
| Recordings.GroupingKeepsOrderedStreams | backtest/replay.py:110-126 | grouping by date is the identity on streams whose dates never go back |
| Recorder.DecodesToEvents | backtest/recorder.py:90-96 | a day's serialised lines decode to that day's events |
| Recorder.EventRecorder.Record | backtest/recorder.py:90-96 | after each record every date's file and buffered lines are that date's recorded lines in order, and the buffer is shorter than flush_every |
| Recorder.EventRecorder.Grouped | backtest/recorder.py:98-106 | grouping keeps each date's lines in order |
| Recorder.EventRecorder.AppendGrouped | backtest/recorder.py:108-116 | each grouped date's file grows by its lines, no other file changes, and at each crash point every date is appended whole or not at all |
| Recorder.EventRecorder.FlushLocked | backtest/recorder.py:98-106 | the account is kept with an empty buffer and every crash point of the flush holds prefixes |
| Recorder.EventRecorder.Close | backtest/recorder.py:122-126 | on a directory that was empty the replay after close is the recorded events grouped by date |
| Recorder.ReplayIsTheRecordedStream | backtest/replay.py:1-7 | recording and replaying are inverse when dates never go back |
| Recorder.HalfFlushedHoldsPrefixes | backtest/recorder.py:98-116 | with some dates appended and others not, each file holds what it held plus a prefix of its date's recorded lines |
| Recorder.EventRecorder.EveryCrashPointHoldsPrefixes | backtest/recorder.py:90-126 | so it does now and after every append ever made, inside flushes too |
| Compaction.ShortCopyIsSmaller | scripts/compact_recordings.py:72-78 | the byte count tells a whole copy from one that stopped short |
| Compaction.EveryCrashPointIsSafe | scripts/compact_recordings.py:59-83 | wherever the process dies the directory replays as before, no day is lost and no other day's files changed |
| Compaction.DeletedOnlyOnceArchived | scripts/compact_recordings.py:80-82 | the plain file is gone only after an archive decoding to it was in place |
| Compaction.TraceEnds | scripts/compact_recordings.py:72-83 | the day ends compacted exactly when the whole file was written, else with plain and archive untouched |
| Compaction.FindCandidates | scripts/compact_recordings.py:111-120 | exactly the plain days before the cutoff without an archive, oldest first, up to the limit |
| Compaction.BothFormsAreLeftAlone | scripts/compact_recordings.py:115-117 | a day present in both forms is never a candidate again and keeps both files |
| Compaction.OnlyFinishedDaysMove | scripts/compact_recordings.py:111-120 | at every crash point the files of today, of later days and of days with an archive are as they were |
| Compaction.RecordingStore.Compact | scripts/compact_recordings.py:59-83 | the file steps are exactly those of the trace, refusing on a size mismatch and failing on an unreadable archive |
| Compaction.RecordingStore.Run | scripts/compact_recordings.py:86-156 | every crash point of the whole job replays as before with today's file untouched; each candidate ends archived or as it was; failures are counted |

## Left out

- Telegram notices, logging and reason strings are not part of any state.
- EnginesInLockstep assumes fixed target, reversion target, min-hold and the staleness gap off, as the two engines have no common form of them; their live rules are in `PositionManagement.ExitDecision`.
- RunsAgree is about positive marks, signals within the sweep's concurrency cap (the router has none) and limit offsets from 0 up to (not including) 10000 bps; the sweep's chase mode is modelled in `AggressiveEntry` but has no live counterpart to compare with.
- The sweep's TakerSimulator, which fills every signal at its next mark, is not modelled.
- RunKeepsAccount is about the loop `AggressiveEntrySimulator` inherits; the sweep script takes the same steps in the same order itself, without counting events and signals. Prints are positive, as a chase divides by the one it fills at, and offsets stay within 10000 bps.
- CloseRemaining visits open positions in an arbitrary order where the source follows insertion order; the trades booked are the same up to their order.
- OnPriceUpdate has no entry router attached; the router's own step on a mark is `EntryOrders.OrderRouter.OnMark`, and the two together appear in `Interleaving.dfy`.
- ManageMark and OpenPosition take the mark tracker's rolling mean and ATR reading as inputs; the tracker itself is not modelled.
- RouteEntry takes the feed's warm-up, the collateral snapshot, the sizing result and the exchange's answer as inputs; margin sizing and order signing are not modelled.
- Confidence rounds half to even at four decimals on exact reals; binary floating point is not modelled, nor is the optional mark-oracle divergence that only reaches the log text.
- AppendGrouped writes whole lines: a line torn inside one append, and disk write errors anywhere, are outside the model, as is power loss beyond a process crash.
- Replay takes every archive in place as readable (compaction verifies it first); a damaged archive raises in the source.
- Compact assumes nobody appends to the day being compacted and that the compressor writes the stream it is given or stops short.
- LoadSessions does not carry the in-progress flag of a session, which only labels the report.
- Finish is called once a run has begun, as the process does; a refresh still writing in another thread while the run is being closed is not modelled.
- CheckDrawdown reads one date per check and nothing else changes the switch during the debounce sleep.
- RequestExit writes its journal row before the order, so a rejected exit that is retried writes more than one row; the profit theorems speak of accepted exits.
- RecoverPositions always has a store; without one the source recovers nothing. The order of the coins in the file is an input; orphans are adopted in any order, as the books after them do not depend on it.
- ComputeMetrics leaves out the Sharpe ratio, which needs a square root, and the report's rounding.
- The legacy momentum engine, margin manager, parameter sweep, configuration, exchange clients and telegram commands are not modelled.
- Decimal's 28-digit rounding and float drift of the running sums are not modelled.
