# Verified model of the squeeze-hunter trading runtime

This project models the order and position protocol of the squeeze-hunter runtime, the backtest that
shares its decision core, and the small machines around them, and proves what they promise over every
run. Prices and money are `real`, shares and timestamps `int`; the broker, the market and the nightly
scan are arbitrary.

| files | part of the system |
|---|---|
| `Common`, `Stops`, `Book`, `Decisions`, `IntradayPath` | the shared exit core, and the daily-bar view against the quote-by-quote view |
| `SellDesk`, `ExitProtocol`, `ExitLiveness`, `ExitRuns`, `ExitExact`, `ExitWitnesses`, `Lifecycle`, `InFlight`, `Pricing` | the exit daemon against a broker that fills, acknowledges and fails when it likes; when it sells, the bound on what it sells, the exact condition, and the concrete runs |
| `BuyDesk`, `Orders`, `EntryProtocol`, `EntrySettle`, `EntryRuns`, `EntryHistory`, `EntryLiveness`, `EntryPath` | entries, the order state machine, snapshots and restarts |
| `Reconcile`, `BuyHoldings`, `Runtime`, `EntryWitnesses` | broker and book reconciliation, and how the runtime's jobs fit it to entry settlement |
| `Sizing`, `Proposals` | Kelly sizing, gates and cumulative budgets |
| `Sums`, `Simulator`, `BarReplay`, `Backtest`, `BacktestDay`, `BacktestRuns`, `BacktestTheorems`, `BacktestExact`, `BacktestSession`, `BacktestLoop` | the simulator, clocked replay, the day loop, and the run-wide theorems |
| `EquityLog`, `Telemetry`, `Killswitch`, `KillswitchController` | bounded telemetry as a refinement of the full log, and the sticky killswitch |
| `Slicing`, `Oms`, `FifoLots` | the TWAP plan, its executor, and FIFO lot matching |

Parts that update objects step by step in the source are classes and loops here. Each is proved against
a specification function, and the theorems are about those functions: `Lifecycle` refines `ExitProtocol`,
`EntryPath` refines `EntryProtocol` and `EntryRuns`, `BacktestLoop` refines `BacktestRuns`. The broker's
behaviour between two calls is an argument (`PassEnv`, `SettleEnv`, `BuyEnv`, `World`), so a statement
about all arguments is a statement about all interleavings.

## Main results

* Exits: `ExitRuns.LiveSellsBounded` and `ExitRuns.QuietHistoriesNeverOversell` over every run of one
  ticker, `ExitExact.OversellsExactly` for the exact condition, `ExitLiveness.PassSellsExactly` for when a
  pass sells,
  `Lifecycle.LifecycleState.ProcessOnePosition` for the in-place daemon,
  `InFlight.OverlappingPassesExclude` for overlapping passes.
* Decisions: `Decisions.RunMarksConserves`, `IntradayPath.BarStopDominatedByQuotes`,
  `IntradayPath.OpenLowCloseAgreement`.
* Entries: `EntryRuns.EntriesSettledExactlyOnce` over every run, `EntryLiveness.SubmitsExactly`,
  `Proposals.ProposedDollars` with `Sizing.KellyValue`, `EntrySettle.SettleAllRaisesExactly`,
  `Runtime.StuckOrderStopsEveryTick`, `EntryPath.EntryPath.SettlePending` for the in-place loop.
* Book and broker: `Runtime.EarlyFillsAreCountedTwice`, `Runtime.CleanHistoriesCountOnce`,
  `Reconcile.ReconcileIsTheRunStep`.
* Backtest: `BacktestTheorems.LedgerOverRuns`, `BacktestTheorems.EquityIsLedger`,
  `BacktestExact.BuysWhatTheSizePaysFor`, `BacktestExact.SellsByTheLevels`,
  `BacktestSession.DayOfAPosition`, `BacktestSession.DayOfAnEntry` and `BacktestSession.DayQueues` for what a
  session does to each ticker, `BacktestSession.FallTrips`, `BacktestTheorems.TripLocksOut`,
  `BacktestTheorems.NoLookahead`, `BacktestTheorems.BuysSeeOnlyTheOpens`, and `BacktestLoop.RunBacktest` for
  the in-place loop.
* Around them: `Telemetry.PortfolioTelemetry.RecordEquity`, `Killswitch.RunMeaning`, `Oms.Execute`,
  `FifoLots.LotsAreTheQueue`, `Proposals.CapsHoldAfterEveryDecision`.

## What the code does not do

Places where the code falls short of the obvious wish. Each is stated as the exact condition.

* An exit can oversell, in four ways. The daemon reads the share count (lifecycle.py:142) before its
  cancel is confirmed (192, 263) and does not read it again before it submits (283). When a submission
  comes back rejected or cancelled after a partial fill, the book keeps the old quantity (317-328). An
  entry credit merges shares that a reconcile has already taken into the book (entries.py:221-231). And a
  crash after a sell and before the next snapshot (runtime.py:439) forgets the sell.
  `ExitRuns.LiveSellsBounded` bounds every run by the shares concerned, `ExitExact.OversellsExactly` is
  the exact condition, and the four runs are `ExitWitnesses.GapFillGoesShort`,
  `ExitWitnesses.DeadSubmissionGoesShort`, `ExitWitnesses.MergedCreditGoesShort` and
  `ExitWitnesses.CrashAfterSellGoesShort`.
* A reject after a partial fill is refused by the state machine (orders.py:61-63), although the broker
  sends one (broker/ibkr.py:32). The settle loop raises exactly then
  (`EntrySettle.SettleAllRaisesExactly`), the order stays in the tracker, and since the loop runs before
  the stops (runtime.py:330-332) no stop is evaluated again while the broker keeps answering:
  `Runtime.StuckOrderStopsEveryTick`, reached in `EntryWitnesses.RejectedOrderSticks`. The positions
  already held are unprotected from then on.
* The reconcile spares the tickers of open buys only from adoption (reconcile.py:56-58), not from the
  quantity correction (43-55), and a second buy goes out while a first is open because only the book is
  checked (entries.py:151). Fills taken in early are credited again until the next reconcile:
  `Runtime.EarlyFillsAreCountedTwice` says by exactly how many, and `EntryWitnesses.SecondOrderCountsThreeTwice`
  is a run.
* Bar and quote cores do not always agree on the open-low-close walk: when a time or decay exit is due
  the quote core leaves at the open for that reason. `IntradayPath.OpenLowCloseAgreement` is the exact
  condition.

## Model

| member | source | states |
|---|---|---|
| `ExitRuns.LiveSellsBounded` | src/squeeze_hunter/execution/lifecycle.py:104-345 | From a fresh ticker, over every sequence of daemon passes, market events, late and merged entry credits, reconciles, snapshots and restarts, with calls failing and fills landing anywhere: at every instant the live sell quantity is between 0 and the position plus the slack, the worst excess so far included, and the position is never below minus the slack. The slack is the fills missed by passes, the shares credited although the book had them, and the shares sold or still for sale on orders that the snapshot of a restart did not know. |
| `ExitRuns.NoSlackNoOversell` | src/squeeze_hunter/execution/lifecycle.py:104-345 | With no slack the account was never short at any instant, the position covers every live sell, every open order is in the position's `pending_exits`, and there is at most one. |
| `ExitRuns.QuietHistoriesNeverOversell` | src/squeeze_hunter/execution/lifecycle.py:104-345 | When every pass is quiet, every credit is covered by shares bought and not yet counted, and no restart forgets a sell, there is no slack: never short at any instant, every live sell tracked, at most one. |
| `ExitExact.OversellsExactly` | src/squeeze_hunter/execution/lifecycle.py:263-288 | Over the same runs: the account oversold at some instant if and only if some accepted order asked for more than was held less what was then for sale, that being at most the sells lost by restarts; without lost sells, if and only if some order was accepted for more shares than were held at that moment. |
| `ExitExact.PassOversellsExactly` | src/squeeze_hunter/execution/lifecycle.py:104-345 | One pass from a desk that has not oversold and whose live sells are tracked, whatever the book claims: it oversells if and only if it has an order accepted for more shares than were held at that moment. |
| `ExitExact.ResubmitOversellsExactly` | src/squeeze_hunter/execution/lifecycle.py:263-288 | One submission, after a confirmed cancel of what was live: it oversells if and only if it asks for more than is held when the order is accepted. The share count is read at line 142 and not read again. |
| `ExitExact.WatchedCanResubmit` | src/squeeze_hunter/execution/lifecycle.py:263-288 | The state after a fill in the gap, or after a dead submission, is one from which that condition decides. |
| `ExitExact.RunWatched` | src/squeeze_hunter/execution/lifecycle.py:104-345 | Over every run the worst instant is explained by an order that oversold when it was accepted, and until one does at most the lost sells are for sale untracked. |
| `ExitWitnesses.GapFillGoesShort` | src/squeeze_hunter/execution/lifecycle.py:142-288 | A concrete run: four of ten shares fill between the position read and the confirmed cancel, and the resubmission takes the account four shares over. |
| `ExitWitnesses.DeadSubmissionGoesShort` | src/squeeze_hunter/execution/lifecycle.py:317-328 | A concrete run: a submission comes back dead after filling four of ten shares, the book keeps ten, and the next pass oversells by four. |
| `ExitWitnesses.MergedCreditGoesShort` | src/squeeze_hunter/execution/entries.py:221-231 | A concrete run from the empty account in which nothing is missed or lost: a reconcile takes in three shares of an open buy, its settlement credits them again, and a pass during which nothing happens sells three too many. |
| `ExitWitnesses.CrashAfterSellGoesShort` | src/squeeze_hunter/runtime.py:484-541 | A concrete run from the empty account in which nothing is missed or doubled: a crash after a sell and before the next snapshot leaves it unknown, and the next pass sells the position again. |
| `ExitRuns.OpenOrdersAreTracked` | src/squeeze_hunter/execution/lifecycle.py:263-337 | In any safe state without slack, every open sell at the broker is tracked by the position and two open sells are the same order. |
| `ExitRuns.RunKeepsSafe` | src/squeeze_hunter/execution/lifecycle.py:104-345 | Safety of a ticker is kept by every run of any length, and the slack only grows. |
| `ExitRuns.StepKeepsSafe` | src/squeeze_hunter/execution/lifecycle.py:104-345 | One pass, market move, credit, reconcile, snapshot or restart keeps the ticker safe, for the running state and for the saved one. |
| `ExitRuns.QuietGapMissesNothing` | src/squeeze_hunter/execution/lifecycle.py:139-211 | A pass misses nothing when no fill lands during its cancel calls and confirm polls and its own order is not reported dead after filling. |
| `ExitProtocol.PassKeepsSafe` | src/squeeze_hunter/execution/lifecycle.py:104-345 | A whole pass over one position keeps the ticker safe whatever the market does at each await, the fills of the read-to-cancel gap and of a dead submission being counted in the slack. |
| `ExitLiveness.PassSellsExactly` | src/squeeze_hunter/execution/lifecycle.py:104-288 | A pass sends exactly one sell when the quote is answered and usable, a pending exit is read, not flat and its cancel confirmed, and an exit or halve level is hit: the whole position on an exit, half of it rounded down on a halve, at half a percent below the quote on the tick grid. In every other case it sends none. |
| `ExitLiveness.StopsSellExactly` | src/squeeze_hunter/execution/lifecycle.py:215-288 | The same for the stops alone, with or without something to cancel first. |
| `ExitLiveness.StopsTakeNothingIn` | src/squeeze_hunter/execution/lifecycle.py:215-345 | Only the reconcile of a pending exit takes shares into the book from outside; the stops never do. |
| `ExitLiveness.QuoteDecision` | src/squeeze_hunter/execution/decisions.py:76-146 | The decision at a quote from the levels written out, setup by setup: exit, halve or hold, its shares, the new peak and the halved flag. |
| `ExitLiveness.BarDecision` | src/squeeze_hunter/execution/decisions.py:81-146 | The decision on a daily bar from the levels written out: tested at the low against a peak that has seen the open, filled at the low or the close, the close in the next peak. |
| `ExitLiveness.LimitIsHalfPercentBelow` | src/squeeze_hunter/execution/lifecycle.py:282 | The limit is the highest tick at or below 0.995 of the price. |
| `ExitLiveness.BooksTheAnswer` | src/squeeze_hunter/execution/lifecycle.py:289-345 | What is booked for a filled, dead or working answer: position, pending exit, its purpose and size, and the exit record. |
| `ExitLiveness.ReconcilesTheBook` | src/squeeze_hunter/execution/lifecycle.py:139-213 | What the reconcile of a pending exit leaves of the book, holding by holding, and what it records. |
| `ExitLiveness.CancelsEach` | src/squeeze_hunter/execution/lifecycle.py:78-88 | Every id whose cancel call gets through has been asked to cancel or has ended; a failed call does not stop the others. |
| `ExitLiveness.ConfirmsExactly` | src/squeeze_hunter/execution/lifecycle.py:92-101 | A cancel is confirmed exactly when one of the ten polls finds none of the orders open and no poll up to it fails. |
| `ExitProtocol.ConfirmFrom` | src/squeeze_hunter/execution/lifecycle.py:92-101 | A confirmed cancel means that none of the wanted orders is open any more. |
| `ExitProtocol.CancelAndConfirmEvolves` | src/squeeze_hunter/execution/lifecycle.py:69-101 | Cancelling and polling never revives an order or raises the live quantity over the position; position plus shares sold less shares bought stays exactly the same; confirmed means none of the ids is open. |
| `ExitProtocol.ReconcilePendingSafe` | src/squeeze_hunter/execution/lifecycle.py:139-213 | Bringing a pending exit in line with the broker keeps the ticker safe in every branch: flat, partly filled halve, partly filled exit, nothing filled, failed read. |
| `ExitProtocol.ExecuteSafe` | src/squeeze_hunter/execution/lifecycle.py:263-345 | Cancelling what is stale and submitting the decided sale keeps the ticker safe, or leaves it alone when the cancel is not confirmed. |
| `ExitProtocol.EvaluateAndExecuteSafe` | src/squeeze_hunter/execution/lifecycle.py:215-345 | The stops and the sale keep the ticker safe from any state the reconcile can hand over. |
| `ExitProtocol.BookingSafe` | src/squeeze_hunter/execution/lifecycle.py:306-345 | Booking a filled, dead or working submission keeps the ticker safe; only a dead one's fills are missed. |
| `ExitProtocol.SubmitSafe` | src/squeeze_hunter/execution/lifecycle.py:283-288 | After a submission from a safe state the new order is the only one that is not accounted for, and if it has ended its own fills explain the difference. |
| `ExitProtocol.EventsKeepSafe` | tests/broker/fake_ib.py:141-184 | Market events between two calls keep a ticker safe. |
| `SellDesk.HappenEvolves` | tests/broker/fake_ib.py:141-184 | A fill, partial fill, cancel acknowledgement, end or buy never raises live sells over the position, never revives an order, and moves the position by exactly the shares bought less the shares sold. |
| `SellDesk.Reported` | tests/broker/fake_ib.py:141-184 | The status a submission reports is truthful: filled only when all shares filled, dead only when ended short. |
| `Lifecycle.LifecycleState.ProcessOnePosition` | src/squeeze_hunter/execution/lifecycle.py:104-345 | The in-place pass leaves exactly the position, desk, exit log and slack of `ExitProtocol.ProcessOne`, touches no other ticker, and keeps every ticker safe. |
| `Lifecycle.LifecycleState.Pass` | src/squeeze_hunter/execution/lifecycle.py:115-345 | The body of one pass leaves exactly the state the protocol function describes. |
| `Lifecycle.LifecycleState.ReconcilePending` | src/squeeze_hunter/execution/lifecycle.py:139-213 | The in-place pending-exit reconcile ends or goes on exactly as the protocol says, with the same book, desk and exit records. |
| `Lifecycle.LifecycleState.Act` | src/squeeze_hunter/execution/lifecycle.py:215-345 | Stops, cancel and sale, in place, leave exactly the protocol's state. |
| `Lifecycle.LifecycleState.Execute` | src/squeeze_hunter/execution/lifecycle.py:263-288 | Cancel then sell, in place, leaves exactly the protocol's state. |
| `Lifecycle.LifecycleState.Sell` | src/squeeze_hunter/execution/lifecycle.py:283-345 | Submitting and booking the answer, in place, leaves exactly the protocol's state. |
| `Lifecycle.LifecycleState.CancelAndConfirm` | src/squeeze_hunter/execution/lifecycle.py:69-101 | The cancel and poll loops over the broker reach exactly the protocol's desk and verdict. |
| `Lifecycle.LifecycleState.RecordExit` | src/squeeze_hunter/execution/lifecycle.py:52-57 | The new exit is appended and only the last `exits_max_entries` are kept. |
| `Lifecycle.RecordAllKeepsTheLast` | src/squeeze_hunter/execution/lifecycle.py:52-57 | Trimming at every append is keeping the last entries of the untrimmed log. |
| `Lifecycle.LifecycleState.ManageOne` | src/squeeze_hunter/execution/lifecycle.py:360-368 | One ticker is claimed, processed and released; every other ticker is untouched and the in-flight set is back to what it was. |
| `Lifecycle.LifecycleState.ManagePositions` | src/squeeze_hunter/execution/lifecycle.py:348-369 | Every position that is not in flight goes through the protocol exactly once, every other ticker is left alone, and the in-flight set is back to what it was. |
| `InFlight.OverlappingPassesExclude` | src/squeeze_hunter/execution/lifecycle.py:353-369 | Over every interleaving of any number of passes, exceptions included: at most one pass is inside a ticker, `in_flight` is exactly the set of tickers being processed, and it is empty once no pass is processing. |
| `InFlight.ClaimSkipsBusyTicker` | src/squeeze_hunter/execution/lifecycle.py:360-363 | A pass that reaches a ticker another pass is in skips it and disturbs nothing. |
| `InFlight.ClaimsExactly` | src/squeeze_hunter/execution/lifecycle.py:360-363 | A pass enters the next of its tickers exactly when no pass is in it. |
| `InFlight.ReleasesExactly` | src/squeeze_hunter/execution/lifecycle.py:364-369 | Leaving a ticker frees it and nothing else; the pass goes on, unless it raised. |
| `InFlight.StartedPassFinishes` | src/squeeze_hunter/execution/lifecycle.py:353-369 | A pass that meets nobody, once started, goes through all of its tickers and leaves nothing in flight. |
| `InFlight.RunKeepsExclusive` | src/squeeze_hunter/execution/lifecycle.py:353-369 | Mutual exclusion is kept by every run of steps. |
| `Decisions.RunMarksConserves` | src/squeeze_hunter/execution/decisions.py:110-153 | Over any sequence of marks: shares halved plus shares exited plus shares left are the initial shares; at most one halve is issued, none once `halved` is set; a surviving position carries the maximum of its initial peak and all folded prices and at least one share. |
| `Decisions.RunningPeakIsMaximum` | src/squeeze_hunter/execution/decisions.py:110-146 | The running peak is the greatest of the start and every price folded in, and is one of them. |
| `Decisions.StepConserves` | src/squeeze_hunter/execution/decisions.py:110-153 | One decision either sells everything or leaves at least one share, changing only quantity, peak and the halved flag; a halve happens only once. |
| `Decisions.DecisionShape` | src/squeeze_hunter/execution/decisions.py:110-146 | Which branch a decision is: price-triggered exactly when a price arm fires at the mark, a halve of at least one but not all shares, an exit of all shares, a hold of none. |
| `Decisions.HoldMeansAboveStops` | src/squeeze_hunter/risk/stops.py:54-67 | A position that is not exited was strictly above its hard-stop level and its armed trailing level, as prices, and below its time stop. |
| `Stops.EvaluateStops` | src/squeeze_hunter/risk/stops.py:42-79 | The signal is an exit exactly when one of the hard, trailing, time or full-decay arms fires, a hard stop exactly when its arm fires, a price stop exactly when a price arm does; a halve exactly when nothing exits and a position not yet halved has decayed by half. |
| `Stops.SignalLevels` | src/squeeze_hunter/risk/stops.py:42-79 | Every signal as a level on price, bars or score, parameter by parameter, in the order the arms are tried. |
| `Stops.TrailingBySetup` | src/squeeze_hunter/risk/stops.py:57-67 | With the peak above the entry and the hard stop quiet, a CAR position trails out exactly at its own threshold below the peak, a GME one at its own, every other setup at the mixed one. |
| `IntradayPath.BarStopDominatedByQuotes` | src/squeeze_hunter/execution/decisions.py:76-146 | If the daily bar triggers a price stop, the quote-by-quote core has exited by the time the low is quoted, on any path from the open that stays at or above the low and reaches it, at a quote no lower than the bar's fill reference. |
| `IntradayPath.OpenLowCloseAgreement` | src/squeeze_hunter/execution/decisions.py:76-146 | On the open-low-close walk a price exit of the quote core implies one of the bar core, and the two agree exactly when the bar has no price stop, or it already holds at the open, or the time and decay arms are quiet. |
| `IntradayPath.ExitsByTheLow` | src/squeeze_hunter/execution/decisions.py:76-146 | Once the peak is reached, any path that visits a firing low exits at or before it and never below it. |
| `IntradayPath.CloseAddsNoPriceStop` | src/squeeze_hunter/risk/stops.py:54-67 | A close at or above a low that fired nothing fires nothing either, even if it makes a new peak. |
| `IntradayPath.LowerPriceFires` | src/squeeze_hunter/risk/stops.py:54-67 | The price arms are monotone: a lower price fires whenever a higher one does. |
| `IntradayPath.PriceArmsSurviveAHigherPeak` | src/squeeze_hunter/risk/stops.py:54-67 | Raising the peak never disarms a firing price arm. |
| `Orders.ApplyMovesForward` | src/squeeze_hunter/execution/orders.py:36-68 | A report is refused exactly by a terminal record or by a partial one told it is pending, routed or rejected; an accepted report never lowers stage or filled quantity and keeps the order's identity. |
| `Orders.FollowNeverGoesBack` | src/squeeze_hunter/execution/orders.py:139-153 | Along any report stream stage and filled quantity never go back, and the filled quantity is the highest reported so far. |
| `Orders.OrderlyNeverRaises` | src/squeeze_hunter/execution/orders.py:75-153 | With documented statuses, fills that never shrink, "partial" only with a fill and no reject after a fill, no report before a terminal state raises, and the filled quantity is the last one reported. |
| `Orders.RejectAfterPartialSticks` | src/squeeze_hunter/execution/orders.py:61-63 | A partly filled record told "rejected" raises on the first report, on every repetition, and stays open. |
| `Orders.FollowKeepsTheLatestFigures` | src/squeeze_hunter/execution/orders.py:139-153 | Along any report stream price and commission are the last ones reported that are not zero, and id, ticker, quantity, limit, submission time, score, setup and size stay. |
| `Orders.ToldTwice` | src/squeeze_hunter/execution/orders.py:115-153 | A report that leaves an order open changes nothing when it comes again, nor does the report an open record was made of; a record has the figures of its report and its proposal. |
| `Orders.ReportsByState` | src/squeeze_hunter/execution/orders.py:75-91 | Which reports mean which state: the four ends by name, partial by name or by shares while routed or pending, and pending for anything undocumented. |
| `Orders.RefusalNamesBoth` | src/squeeze_hunter/execution/orders.py:140-142 | A refused report names the record's state and the reported one. |
| `Orders.RowRoundTrip` | src/squeeze_hunter/execution/orders.py:155-188 | Field by field, an order survives being written as a snapshot row and read back; a row without the optional keys is read as a pending order with no fill and no commission. |
| `Orders.OnlyNamesAreRead` | src/squeeze_hunter/execution/orders.py:173-188 | A row is unreadable exactly when its state is none of the seven names, and a state that is read is the one named. |
| `Orders.SnapshotRoundTrip` | src/squeeze_hunter/execution/orders.py:221-230 | Restoring a tracker from its own snapshot gives the same records in the same order. |
| `Orders.OpenIds` | src/squeeze_hunter/execution/orders.py:215-216 | The open orders are exactly the records that are not terminal, once each, in the order they were added. |
| `Orders.OrderTracker.Track` | src/squeeze_hunter/execution/orders.py:198-199 | Adding a record puts it under its id and changes no other. |
| `Orders.OrderTracker.Update` | src/squeeze_hunter/execution/orders.py:204-210 | A known id is folded through the state machine and stored; an unknown id or a refused report changes nothing. |
| `Orders.OrderTracker.Drop` | src/squeeze_hunter/execution/orders.py:212-213 | Forgetting an id removes exactly that record. |
| `Orders.OrderTracker.Open` | src/squeeze_hunter/execution/orders.py:215-216 | The list returned is the open records in insertion order. |
| `Orders.OrderTracker.ToSnapshot` | src/squeeze_hunter/execution/orders.py:221-230 | There is one row per record, and restoring the rows gives back exactly this tracker, order included. |
| `Orders.OrderTracker.Restore` | src/squeeze_hunter/execution/orders.py:224-230 | The tracker becomes exactly what its rows describe; an unreadable state raises. |
| `EntryRuns.EntriesSettledExactlyOnce` | src/squeeze_hunter/execution/entries.py:137-297 | Over every run of plans, submissions, polls that fail, late fills, cancels, rejects before and after a fill, sales, reconciles, snapshots, restarts and crashes: a submitted order is either open in the tracker or settled, never both and at most once; it was credited with exactly the broker's final fill and average price, or with nothing because nothing filled, or because the broker denied knowing it, at a settle loop of that run more than a day after it was sent; and the book is those credits added up, shares and cost, on top of what sales and reconciles made of it. |
| `EntryRuns.WriteOffsWereDenied` | src/squeeze_hunter/execution/entries.py:270-274 | Over every run, restarts included, an order is given up only at a settle loop that was told the broker does not know it. |
| `EntryRuns.BookIsTheCredits` | src/squeeze_hunter/execution/entries.py:205-240 | Over a run without sales and reconciles that base is empty: the book is the credits alone. |
| `EntryRuns.RunKeepsInv` | src/squeeze_hunter/execution/entries.py:137-297 | The entry invariant is kept by every run. |
| `EntryRuns.NextKeepsInv` | src/squeeze_hunter/runtime.py:484-541 | Each step, a restart from the last snapshot included, keeps the invariant for the running state and for the saved one. |
| `EntryRuns.RestartAfterPersistIsIdentity` | src/squeeze_hunter/runtime.py:484-541 | Saving and restoring right away gives back exactly the same tracker, book and plan. |
| `EntrySettle.SettleAllRaisesExactly` | src/squeeze_hunter/execution/entries.py:251-297 | The settle loop raises if and only if some listed order is answered as rejected, before any earlier raise, while its record is partly filled by then; that order is then stuck. |
| `EntrySettle.SettleOneKeepsInv` | src/squeeze_hunter/execution/entries.py:264-297 | Settling one order keeps the invariant in every branch: failed poll, unknown order, terminal report, window over, cancel and second look. It raises exactly when a reject is answered for a partly filled record, at the first look or after the cancel, and gives the order up exactly when the first answer is a denial more than a day after submission. |
| `EntrySettle.CancelAndAskKeepsInv` | src/squeeze_hunter/execution/entries.py:282-297 | Past the window, cancel and second look keep the invariant; they raise exactly when the second look answers that a partly filled order was rejected. |
| `EntrySettle.SettleAllKeepsInv` | src/squeeze_hunter/execution/entries.py:251-297 | The settle loop over all open orders keeps the invariant, whether or not it raises, and gives up none but orders the broker denied knowing. |
| `EntrySettle.StuckOrderPolled` | src/squeeze_hunter/execution/entries.py:264-275 | A stuck order raises on every answer and stays as it is; only a broker that denies knowing it for more than a day gets rid of it. |
| `EntrySettle.StuckSettleRaises` | src/squeeze_hunter/execution/entries.py:257-275 | Whatever the other orders do, a settle loop that lists a stuck order and gets its poll answered raises and leaves it stuck. |
| `EntryRuns.SubmitAllKeepsInv` | src/squeeze_hunter/execution/entries.py:150-194 | Submitting all planned entries keeps the invariant. |
| `EntryRuns.SubmitOneKeepsInv` | src/squeeze_hunter/execution/entries.py:150-194 | One submission is skipped, tracked, or finished at once, and keeps the invariant. |
| `EntryRuns.FinishedOnSubmit` | src/squeeze_hunter/execution/entries.py:190-194 | An order that ended on its submitting call is settled once, with the broker's fill. |
| `EntryLiveness.SubmitsExactly` | src/squeeze_hunter/execution/entries.py:150-175 | A planned entry is sent exactly when the book does not hold it, the quote is answered with an ask, else a last, else a bid above zero, and the size pays for a share there; for as many whole shares as it pays for, at the limit the basis points and the tick give. |
| `EntryLiveness.RemembersItsProposal` | src/squeeze_hunter/execution/entries.py:176-194 | An order, while tracked and when it has become a position, keeps the score, setup and size it was proposed with. |
| `EntryLiveness.PlanIsTakenUp` | src/squeeze_hunter/execution/entries.py:137-194 | Outside the window the plan waits, under the killswitch it is dropped, and otherwise all of it is gone through once. |
| `EntryLiveness.SaleTakesItsShares` | src/squeeze_hunter/execution/lifecycle.py:306-316 | A sale that book and broker can cover takes its shares out of both, the position with its last share, and nothing else. |
| `EntryLiveness.SubmitsEach` | src/squeeze_hunter/execution/entries.py:150-194 | The submit loop goes through the plan in order and leaves none out. |
| `EntryLiveness.SettlesEach` | src/squeeze_hunter/execution/entries.py:264-297 | The settle loop goes through the open orders in order and leaves none out, until one raises. |
| `EntryLiveness.CancelsExactly` | src/squeeze_hunter/execution/entries.py:279-287 | A polled order that is still working is asked to cancel exactly when the entry window is over, or it was sent on another day, and the call gets through before it ends. |
| `EntryLiveness.CreditOpensAPosition` | src/squeeze_hunter/execution/entries.py:232-240 | A credit for a ticker the book does not hold opens a position to which nothing has happened, with the score, setup and commission of its order, and touches no other. |
| `EntryLiveness.SettledFigures` | src/squeeze_hunter/execution/entries.py:205-220 | What an ended record settles to: its fill, or its size if it is only known to be filled, at its average or limit price; nothing without shares or without a price. |
| `EntryLiveness.BuyLimitIsAbove` | src/squeeze_hunter/execution/entries.py:170-172 | The limit is the lowest tick at or above the reference plus the basis points. |
| `EntryProtocol.MergeKeepsCost` | src/squeeze_hunter/execution/entries.py:221-230 | Merging a fill into a held position keeps the total cost, adds the shares, puts the entry price between the two prices, raises the peak to the fill price or leaves it, and changes nothing else. |
| `EntryProtocol.CreditAgrees` | src/squeeze_hunter/execution/entries.py:221-240 | Crediting a fill keeps the book equal to the settlements added up on their base, shares and cost, ticker by ticker. |
| `EntryProtocol.ReportIsAbsorbed` | src/squeeze_hunter/execution/orders.py:139-153 | An exact broker report is refused by a tracked record exactly when it rejects a partly filled order; otherwise the record agrees with the broker afterwards, and a terminal one carries its final fill and price. |
| `EntryProtocol.AbsorbKeepsInv` | src/squeeze_hunter/execution/entries.py:275-278 | Folding a report in and finishing the order if it ended keeps the invariant; it raises, and changes nothing, exactly when the report is refused. |
| `EntryPath.EntryPath.Finish` | src/squeeze_hunter/execution/entries.py:205-249 | The in-place finish drops or credits the order exactly as the protocol says, and marks the ticker at its entry price when it credits. |
| `EntryPath.EntryPath.Take` | src/squeeze_hunter/execution/entries.py:275-278 | Updating the tracker from a report and finishing a terminal order, in place, is the protocol's step. |
| `EntryPath.EntryPath.SettleOneOrder` | src/squeeze_hunter/execution/entries.py:264-297 | One turn of the settle loop, in place, is the protocol's step and touches no other order. |
| `EntryPath.EntryPath.CancelAndLookAgain` | src/squeeze_hunter/execution/entries.py:282-297 | Past the window: cancel, one more look, and keep whatever filled, exactly as the protocol says. |
| `EntryPath.EntryPath.SettlePending` | src/squeeze_hunter/execution/entries.py:251-297 | The settle loop over the open orders reaches exactly the protocol's state. |
| `EntryPath.EntryPath.ExecutePlanned` | src/squeeze_hunter/execution/entries.py:137-194 | The plan is bought once after the opening window, dropped under the killswitch, and left alone before the window. |
| `EntryPath.EntryPath.SubmitPlanned` | src/squeeze_hunter/execution/entries.py:150-194 | One turn of the submit loop, in place, is the protocol's step. |
| `BuyDesk.HappenGrows` | tests/broker/fake_ib.py:141-184 | Buy orders only fill further and a finished one stays as it is. |
| `Pricing.RoundToTickIsMarketable` | src/squeeze_hunter/execution/pricing.py:8-21 | The snapped price is on the tick grid, less than a tick away, never above the asked price for a sell and never below it for a buy. |
| `Runtime.EarlyFillsAreCountedTwice` | src/squeeze_hunter/runtime.py:543-577 | Real settle, submit and reconcile steps: a reconcile that reads a ticker makes the book right at once; after any run that does not read it again or restart, the book is off by exactly the fills uncredited then that are no longer so. Once no fill waits for its order to end and no order was given up meanwhile, it claims exactly the fills that waited at the reading too many, and is right if and only if there were none. |
| `Runtime.CleanHistoriesCountOnce` | src/squeeze_hunter/runtime.py:543-577 | From nothing, over every run without restarts in which reconciles read a ticker only when no tracked order has a fill of it: book plus fills waiting for their order to end never exceed what the broker holds, and lack at most the fills of orders given up after a denial and more than a day. |
| `Runtime.IdleReadsNeverClaimTooMuch` | src/squeeze_hunter/runtime.py:543-577 | The same from any state, fills of orders forgotten by an earlier restart included in what may be lacking. |
| `Runtime.SettledReadsCountOnce` | src/squeeze_hunter/runtime.py:543-577 | When reconciles read the ticker only once every fill is credited, every share at the broker is in the book, or waits for its order to end, or belongs to an order given up or forgotten by an earlier restart, and is counted in one of these only. |
| `Runtime.GoneOnlyGrows` | src/squeeze_hunter/execution/entries.py:205-297 | What no credit will bring into the book, of orders given up or forgotten, stays so through every step but a restart. |
| `Runtime.BookAgainstBroker` | src/squeeze_hunter/runtime.py:313-365 | In every reachable state the book differs from the broker by exactly the shares it runs ahead of the credits, less the fills not credited; and those wait for their order to end, or were given up, or belong to orders a restart forgot. |
| `Runtime.StepMovesAhead` | src/squeeze_hunter/runtime.py:484-577 | A reading sets that lead to the fills not credited at that moment, a restart takes it from the snapshot, and no other step moves it. |
| `Runtime.StuckOrderStopsEveryTick` | src/squeeze_hunter/runtime.py:330-332 | From one reject after a partial fill on, for as long as the broker answers for that order, no tick reaches `manage_positions`, whatever the other jobs, the market and the broker do; nor does a restart help from a snapshot that has the partly filled record. |
| `Runtime.TickManagesExactly` | src/squeeze_hunter/runtime.py:313-332 | A tick reaches the stops if and only if no listed order is answered as rejected after a partial fill; if one is, an order is stuck. |
| `Runtime.TickTakesUpThePlan` | src/squeeze_hunter/runtime.py:330-332 | A tick that gets to the stops leaves nothing of the plan in the window and all of it outside; one that does not has touched none of it. |
| `Runtime.StepsBetweenTicks` | src/squeeze_hunter/runtime.py:484-577 | A job between two ticks is its one step and does not reach the stops. |
| `Runtime.StuckStays` | src/squeeze_hunter/execution/entries.py:251-278 | A stuck order stays stuck through submissions, sales, reconciles and snapshots, and through every settle loop that gets an answer about it, which raises. |
| `Runtime.SnapshotStays` | src/squeeze_hunter/runtime.py:484-541 | A snapshot that has the stuck record keeps having it, later snapshots included. |
| `EntryWitnesses.SecondOrderCountsThreeTwice` | src/squeeze_hunter/execution/entries.py:150-152 | A run from the empty account: a second order for a ticker goes out while a first is open, because only the book is checked; a reconcile takes in three early fills, and after settlement the book claims eighteen of fifteen shares. |
| `EntryWitnesses.RejectedOrderSticks` | src/squeeze_hunter/execution/orders.py:61-63 | A run from the empty account that ends with a stuck order, in the running state and in its snapshot. |
| `BuyHoldings.CreditsAddUp` | src/squeeze_hunter/execution/entries.py:205-240 | All filled shares of a ticker are the credited ones plus the uncredited ones. |
| `BuyHoldings.UncreditedParts` | src/squeeze_hunter/execution/entries.py:205-297 | The uncredited ones are those of tracked orders, those of orders given up, and those of orders the state does not know. |
| `EntryHistory.NextExtends` | src/squeeze_hunter/execution/entries.py:137-297 | Every step but a restart only adds settlements and submitted orders, and a newly submitted order is under an id that is new to the broker. |
| `BuyHoldings.FilledGrows` | tests/broker/fake_ib.py:141-184 | The shares filled of a ticker only grow as the broker moves on. |
| `BuyHoldings.WithBookKeepsInv` | src/squeeze_hunter/execution/reconcile.py:43-78 | Whatever a sale or a reconcile makes of the book, the entry invariant is kept with a base that absorbs exactly the change. |
| `Reconcile.FullReconcileAgrees` | src/squeeze_hunter/execution/reconcile.py:40-78 | After a full reconcile every local quantity is the broker's, no phantom is left, every priced unknown holding that is not skipped is adopted, and a known position keeps everything but its quantity. |
| `Reconcile.TickReconcileAgrees` | src/squeeze_hunter/execution/reconcile.py:45-46 | The pass between full ones gives the same result ticker by ticker, except that a position with exits in flight is exactly as it was. |
| `Reconcile.ReconcileIdempotent` | src/squeeze_hunter/execution/reconcile.py:40-78 | A second run against an unchanged broker changes nothing. |
| `Reconcile.ReconcileIsTheRunStep` | src/squeeze_hunter/execution/reconcile.py:40-78 | Ticker by ticker, skipped tickers included, this is the reconcile step of the exit protocol's runs, so what those runs keep is kept by it. |
| `Reconcile.HeldIsTheLast` | src/squeeze_hunter/execution/reconcile.py:41 | A ticker is held exactly when some snapshot has a positive quantity of it, and the last such snapshot counts. |
| `Reconcile.AdoptsAtItsCost` | src/squeeze_hunter/execution/reconcile.py:56-77 | An unknown holding that no open buy explains comes in whole at its average cost, else at the last, bid or ask of its quote, without score, commission or anything pending; and not at all without a positive price. |
| `Reconcile.ReconcileBook` | src/squeeze_hunter/execution/reconcile.py:20-78 | The two loops leave exactly the reconciled book; an adopted holding is marked at its entry price; no drift means nothing changed. |
| `Reconcile.ReconcileLocal` | src/squeeze_hunter/execution/reconcile.py:43-55 | The first loop drops phantoms with their marks, adopts quantities, and leaves the rest alone. |
| `Reconcile.ReconcileTicker` | src/squeeze_hunter/execution/reconcile.py:44-55 | One local position is left alone, dropped with its mark, or brought to the broker's quantity; drift is reported exactly when it changed. |
| `Reconcile.AdoptUnknown` | src/squeeze_hunter/execution/reconcile.py:56-77 | The second loop adopts exactly the unknown, unskipped, priced holdings; drift is empty exactly when there was no unknown holding. |
| `Killswitch.RunMeaning` | src/squeeze_hunter/risk/killswitch.py:58-82 | Over any run in time order trips and clears alternate, two trips are at least the cooldown apart, the switch is on exactly when the last change was a trip, and it remembers that trip's time. |
| `Killswitch.AdvanceMeaning` | src/squeeze_hunter/risk/killswitch.py:58-82 | After a step the switch is on exactly when the verdict trips or the remembered trip's cooldown has not elapsed; the trip time changes only at a trip or a clear, and no clear comes inside the cooldown. |
| `Killswitch.WhyItIsOn` | src/squeeze_hunter/risk/killswitch.py:58-82 | From any state: inside a cooldown the switch keeps its reason and its time, after it the verdict gives the reason, and off it has neither. |
| `Killswitch.NoTripBefore` | src/squeeze_hunter/risk/killswitch.py:65-82 | No trip follows another before its cooldown is over. |
| `Killswitch.Evaluate` | src/squeeze_hunter/risk/killswitch.py:27-48 | The verdict trips exactly when one of the five arms reaches its limit, and then has a reason. |
| `Killswitch.FallTripsTheVerdict` | src/squeeze_hunter/risk/killswitch.py:36 | A last reading that is the monthly limit or more below any positive reading of the last thirty days trips the switch, for that reason. |
| `Killswitch.ReasonIsTheFirstArm` | src/squeeze_hunter/risk/killswitch.py:27-48 | Which arm reads which figure, and which gives the reason when several trip. |
| `KillswitchController.Controller.Evaluate` | src/squeeze_hunter/risk/killswitch_controller.py:37-71 | One verdict and one sticky step: while on, the reason's gauge is 1 and its tag is remembered; once off, every gauge is 0; every gauge at 1 is always listed in `active_reasons`. |
| `KillswitchController.Controller.Reset` | src/squeeze_hunter/risk/killswitch_controller.py:73-80 | The operator's reset clears the state and zeroes every gauge. |
| `KillswitchController.Controller.Restore` | src/squeeze_hunter/risk/killswitch_controller.py:90-105 | Any snapshot is taken back as it is; with a fresh gauge registry the controller is in order exactly when the snapshot is one a controller in order could have written. |
| `KillswitchController.Controller.SnapshotsAreWritten` | src/squeeze_hunter/risk/killswitch_controller.py:90-98 | A controller in order writes a snapshot that restores to one in order. |
| `Killswitch.NextStepPutsRight` | src/squeeze_hunter/risk/killswitch.py:58-82 | From any state at all the next step is coherent again, unless the switch was on without a trip time and the verdict trips. |
| `Telemetry.PortfolioTelemetry.RecordEquity` | src/squeeze_hunter/telemetry.py:36-64 | Whatever is recorded in time order, the history is the last 60 last-of-day readings of the full log and the daily peaks are those of the last 90 days. |
| `Telemetry.PortfolioTelemetry.Rolling30dMaxDrawdown` | src/squeeze_hunter/telemetry.py:80-103 | The drawdown from the bounded fields is the one computed from every reading ever recorded in the window. |
| `Telemetry.PortfolioTelemetry.Last3DaysPnlPct` | src/squeeze_hunter/telemetry.py:105-120 | The three-day return from the kept history is the one over all day closes. |
| `Telemetry.PortfolioTelemetry.PeakInWindow` | src/squeeze_hunter/telemetry.py:88-94 | The peak found is the highest daily peak on or after the cutoff day, if there is one. |
| `Telemetry.HistoryAfterReading` | src/squeeze_hunter/telemetry.py:36-52 | Collapsing and trimming at every reading gives the last 60 day closes of the longer log. |
| `Telemetry.PeaksAfterReading` | src/squeeze_hunter/telemetry.py:53-64 | Raising and evicting at every reading gives the daily peaks of the last 90 days of the longer log. |
| `Telemetry.WindowPeakIsLogPeak` | src/squeeze_hunter/telemetry.py:88-94 | The highest kept daily peak in the window is the highest reading in it. |
| `Telemetry.PortfolioTelemetry.WorstPositionGapPct` | src/squeeze_hunter/telemetry.py:122-132 | The result is the lowest return of any marked position with a positive entry, or 0 when none has lost. |
| `Telemetry.PortfolioTelemetry.ClampFreshnessTo` | src/squeeze_hunter/telemetry.py:134-146 | Every older stamp is raised to the floor and no other is touched. |
| `Telemetry.PortfolioTelemetry.ClampThenMeasure` | src/squeeze_hunter/telemetry.py:134-160 | After clamping to the session open no outage timer reads more than the time in session. |
| `EquityLog.DayClosesAreLastOfDay` | src/squeeze_hunter/telemetry.py:36-52 | Every reading that is the last of its day is a day close and every day close is a reading. |
| `EquityLog.RecentFitsInSixty` | src/squeeze_hunter/telemetry.py:105-114 | The last 60 day closes are enough for any window shorter than 60 days. |
| `EquityLog.PeakSinceByDay` | src/squeeze_hunter/telemetry.py:80-94 | The peak over a window is the highest of its days' peaks. |
| `EquityLog.DrawdownMeaning` | src/squeeze_hunter/telemetry.py:80-103 | With P the highest reading of the last thirty days, and positive, drawdown times P is the last reading less P; at most zero when that is in the window, zero exactly when it is the highest, and zero without a positive reading. |
| `EquityLog.DrawdownAtLeast` | src/squeeze_hunter/telemetry.py:101-103 | The drawdown reaches a limit exactly when the last reading is that far below the highest of the window. |
| `EquityLog.FallIsADrawdown` | src/squeeze_hunter/telemetry.py:101-103 | A fall from any reading of the window is a drawdown at least as deep. |
| `EquityLog.PeakIsHighest` | src/squeeze_hunter/telemetry.py:88-94 | The peak is the highest reading on or after the cutoff day, and is one of them. |
| `EquityLog.GrowthMeaning` | src/squeeze_hunter/telemetry.py:105-120 | With F the first close at or after the cutoff, positive and not the last, growth times F is the last close less F; otherwise zero. |
| `EquityLog.NoGrowthWithoutCloses` | src/squeeze_hunter/telemetry.py:105-120 | Without a close at or after the cutoff the figure is zero. |
| `Proposals.ProposalsWithinBudgets` | src/squeeze_hunter/execution/decisions.py:195-283 | Over any candidate list: accepted tickers are distinct and were not held, and the state at the end is inside the day's slots, the book's slots and the exposure cap. |
| `Proposals.CapsHoldAfterEveryDecision` | src/squeeze_hunter/execution/decisions.py:221-283 | After every decision, from the first acceptance on: the running state counts exactly the names accepted so far and is inside the day's slots, the book's slots and the exposure cap. |
| `Proposals.ProposalsOneByOne` | src/squeeze_hunter/execution/decisions.py:195-283 | There is one decision per candidate, in order, with its own ticker, score and setup; `position_cap_exceeded` and `equity_nonpositive` never are the reason; every accepted size is positive and inside the position cap. |
| `Proposals.ProposedDollars` | src/squeeze_hunter/execution/decisions.py:235-283 | Every acceptance on the list has its dollars: equity times the Kelly fraction of the edge over the payoff, or times the cap if that is less, half of it before earnings. |
| `Proposals.DecideExactly` | src/squeeze_hunter/execution/decisions.py:221-283 | A candidate is accepted exactly when a slot is left, Kelly gives it something and it passes every gate at the size traded, which is its dollars; and what the other reasons are. |
| `Proposals.RefusedForAFailingGate` | src/squeeze_hunter/execution/decisions.py:221-283 | A candidate with a slot, a setup and a size is refused for the first gate that fails at that size. |
| `Proposals.DollarsAddUp` | src/squeeze_hunter/execution/decisions.py:278-282 | The exposure, in dollars, grows by exactly the dollars accepted, over any list. |
| `Proposals.DollarsFit` | src/squeeze_hunter/execution/decisions.py:221-283 | All acceptances together fit into the exposure that was left. |
| `Proposals.DecideWithinBudgets` | src/squeeze_hunter/execution/decisions.py:221-283 | What an acceptance guarantees against the running state, and which gates cannot be the reason of a refusal. |
| `Proposals.ReserveCounts` | src/squeeze_hunter/execution/decisions.py:278-282 | An acceptance takes exactly one new slot, keeps all budgets, and a refusal changes nothing. |
| `Proposals.ProposeEntries` | src/squeeze_hunter/execution/decisions.py:195-283 | The loop gives exactly the decisions of the recursive form and leaves the caller's state as it was. |
| `Sizing.KellyPositionPct` | src/squeeze_hunter/risk/kelly.py:17-33 | The fraction is between 0 and the cap for any observations. |
| `Sizing.KellyValue` | src/squeeze_hunter/risk/kelly.py:24-33 | With p the shrunk win rate and b the shrunk payoff: zero without an edge p*b - (1-p); below the cap the fraction times b is the Kelly fraction of the edge; the cap from there on. |
| `Sizing.GrowthPeaksAtKelly` | src/squeeze_hunter/risk/kelly.py:31 | The edge over the payoff is the stake at which the expected log growth peaks: it rises below and falls above. |
| `Sizing.RatesAreMeans` | src/squeeze_hunter/risk/kelly.py:23-28 | Win rate and payoff are the means of the observations and of `prior_n` more at the prior, and the prior itself at no trades. |
| `Sizing.ShrunkIsTheMean` | src/squeeze_hunter/risk/kelly.py:24-28 | The shrunk figure lies between prior and observation. |
| `Sizing.KellyRisesWithWins` | src/squeeze_hunter/risk/kelly.py:17-33 | More wins are never sized smaller. |
| `Sizing.KellyRisesWithPayoff` | src/squeeze_hunter/risk/kelly.py:17-33 | A higher payoff is never sized smaller. |
| `Sizing.PriorsBySetup` | src/squeeze_hunter/risk/kelly.py:47-91 | Which setup starts from which prior: its own row of the given table or of the built-in one, the mixed row without one, nothing for a weak setup. |
| `Sizing.DefaultPriorsHaveAnEdge` | src/squeeze_hunter/risk/kelly.py:36-52 | With the built-in priors every setup but a weak one is sized above zero before its first trade. |
| `Sizing.EvaluateGates` | src/squeeze_hunter/risk/gates.py:46-102 | A proposal is accepted if and only if it passes every gate at the size traded, which is halved before earnings; without equity it is refused for that reason. |
| `Sizing.FirstFailingGateDecides` | src/squeeze_hunter/risk/gates.py:46-102 | A proposal is accepted exactly when none of the fourteen gates fails, each written out in dollars, shares and days, and is refused for the first in their order that does. |
| `BacktestTheorems.LedgerOverRuns` | src/squeeze_hunter/backtest/runner.py:112-281 | After any number of sessions, whatever the data and the scan: book and simulator hold the same tickers, quantities and entry prices; cash minus initial cash is the logged realized P&L minus the cost, entry commission included, of the shares held; open positions and queued entries fit `max_positions`; the queue fits `max_new_per_day`; no position is at or past its time stop. |
| `BacktestTheorems.EquityIsLedger` | src/squeeze_hunter/backtest/runner.py:263-267 | After every session the recorded equity is the initial cash plus everything realized plus the unrealized P&L of the open positions at their marks. |
| `BacktestTheorems.BuysWithinBudget` | src/squeeze_hunter/backtest/runner.py:127-165 | Over a run of increasing sessions no session logs more buys than `max_new_per_day` and no other date has any. |
| `BacktestTheorems.NoBuysUnderKillswitch` | src/squeeze_hunter/backtest/runner.py:125-127 | No buy is ever logged for a session that began with the killswitch active. |
| `BacktestTheorems.TripLocksOut` | src/squeeze_hunter/backtest/runner.py:269-279 | A trip stays active with its own trip time for the whole cooldown, and no session that begins inside the window logs a buy. |
| `BacktestTheorems.NoLookahead` | src/squeeze_hunter/backtest/runner.py:112-281 | Two histories that agree on every bar up to the end of a session give the same state there, queued entries included, and the two full runs share their equity curve and trade log through it. |
| `BacktestTheorems.BuysSeeOnlyTheOpens` | src/squeeze_hunter/backtest/runner.py:83-165 | Two histories that agree on every bar through the session before and on the opens of a session log the same buys in it, in order, whatever its highs, lows, closes and volumes and whatever comes later. |
| `BacktestTheorems.BuysOfSession` | src/squeeze_hunter/backtest/runner.py:125-165 | In any full run the buys dated to a session are those of its morning. |
| `BacktestTheorems.FillAllSeesOpens` | src/squeeze_hunter/backtest/runner.py:128-164 | Filling the queue depends on nothing of the day but the opens: the whole state after it is the same. |
| `BacktestTheorems.RunSeesOnlyThePast` | src/squeeze_hunter/backtest/runner.py:112-281 | A run depends on nothing after its last session. |
| `BacktestTheorems.RunOnlyAppends` | src/squeeze_hunter/backtest/runner.py:112-281 | A longer run extends a shorter one: trades and readings already recorded are never revised. |
| `BacktestTheorems.SameRowsSamePast` | src/squeeze_hunter/data/providers/backtest.py:64-105 | For raw caches it is enough that the rows that parse agree up to the time, in whatever order they are stored. |
| `BacktestTheorems.RunStep` | src/squeeze_hunter/backtest/runner.py:112-281 | One more session only appends to the log and adds one reading; it logs buys for its own date only, within the budget, none when it began with the killswitch active. |
| `BacktestTheorems.Run` | src/squeeze_hunter/backtest/runner.py:112-281 | Every run ends in a state from which the next session can start: book and broker agree, the ledger balances, the queue is fillable and within budget. |
| `BacktestRuns.DayStepKeeps` | src/squeeze_hunter/backtest/runner.py:112-281 | One session keeps the ledger, the limits and the killswitch's coherence. |
| `BacktestRuns.FillAllKeeps` | src/squeeze_hunter/backtest/runner.py:125-165 | Filling the queue keeps book and broker in agreement and the ledger balanced, adds at most one buy per entry, and every new position has a bar today. |
| `BacktestRuns.ManageAllKeeps` | src/squeeze_hunter/backtest/runner.py:176-227 | Managing all positions keeps agreement and balance, logs sells only, and leaves every managed position below its time stop and every other as it was. |
| `BacktestRuns.ProposeStepKeeps` | src/squeeze_hunter/backtest/runner.py:229-261 | The queue left for tomorrow has distinct tickers that are not held, fits both budgets, and is empty under the killswitch. |
| `BacktestRuns.EndDayKeeps` | src/squeeze_hunter/backtest/runner.py:263-281 | Marking and advancing the killswitch changes neither book, log nor queue, adds one reading, and keeps a trip alive while it cools down. |
| `BacktestRuns.StatsAfterTrade` | src/squeeze_hunter/execution/decisions.py:168-182 | A full exit of a setup is one more trade and, if it made money, one more win; a buy, a halve or another setup changes nothing. |
| `BacktestRuns.StatsAreSane` | src/squeeze_hunter/execution/decisions.py:168-182 | There are never more wins than trades; a payoff is observed exactly when there is a gain and a loss in percent, and is positive. |
| `Backtest.FillOneKeeps` | src/squeeze_hunter/backtest/runner.py:128-164 | One queued entry is skipped or filled; either way book and broker agree and the ledger balances, and a filled one is a position with no bars held on a ticker with a bar today. |
| `Backtest.FillWithShape` | src/squeeze_hunter/backtest/runner.py:141-163 | A fill costs its gross plus commission, opens one lot and one position at the same positive price, and logs one buy. |
| `Backtest.BuyQty` | src/squeeze_hunter/backtest/runner.py:141 | As many whole shares as the size pays for at the open, and one if it does not pay for one. |
| `BacktestExact.BuysWhatTheSizePaysFor` | src/squeeze_hunter/backtest/runner.py:128-164 | A queued entry with a bar today and a positive open becomes one logged buy, one lot and one fresh position of the shares its size pays for at the open, at the open plus its slippage; otherwise nothing. |
| `BacktestExact.SellsByTheLevels` | src/squeeze_hunter/backtest/runner.py:178-227 | A position with a bar today, level by level: whether it is sold whole, halved or kept, for which reason, how many shares, at the low or the close less slippage, with what profit and return; what it looks like if it stays; and that no other position moves. |
| `BacktestExact.TodayBarMeaning` | src/squeeze_hunter/backtest/runner.py:131-137 | Today's bar is the last one dated today, and there is none exactly when none is dated today. |
| `BacktestExact.LastSecondOfTheDay` | src/squeeze_hunter/backtest/runner.py:122-123 | The clock of a session stands on the last second of its day. |
| `BacktestExact.WithoutABarNothingMoves` | src/squeeze_hunter/backtest/runner.py:184-189 | A position without a bar today is left alone and counts at its last mark, if that is not zero. |
| `BacktestSession.DayOfAPosition` | src/squeeze_hunter/backtest/runner.py:128-227 | One session, for a position held overnight: whatever the queue and the other positions do, it takes today's score, is one bar older, is run once by its levels on today's bar, and trades exactly as they say; without a bar it stays as it was. |
| `BacktestSession.DayOfAnEntry` | src/squeeze_hunter/backtest/runner.py:128-227 | One session, for a queued entry: nothing under the killswitch; otherwise it is filled at the open if there is one, and what was bought is managed the same day. |
| `BacktestSession.DayOfAnother` | src/squeeze_hunter/backtest/runner.py:128-227 | One session, for any other ticker: not held, not traded. |
| `BacktestSession.DayQueues` | src/squeeze_hunter/backtest/runner.py:229-261 | The queue a session leaves: none if it began under the killswitch or had no scan; otherwise entries sized on the equity it records and the trades logged through it. |
| `BacktestSession.DeepLowTrips` | src/squeeze_hunter/backtest/runner.py:194-196 | A session ends with the killswitch on when a position held overnight has traded as far below its entry as the gap limit. |
| `BacktestSession.FallTrips` | src/squeeze_hunter/backtest/runner.py:262-279 | And when the equity it records is the monthly limit or more below a positive reading of the last thirty days. |
| `BacktestSession.ManagesEach` | src/squeeze_hunter/backtest/runner.py:176-227 | The exit loop manages every position once and touches no other. |
| `BacktestSession.FillsEach` | src/squeeze_hunter/backtest/runner.py:128-164 | The fill loop tries every queued entry once and touches no other ticker. |
| `BacktestExact.RescoredFromTheScan` | src/squeeze_hunter/backtest/runner.py:169-174 | Before the stops every open position takes the score of its last row in the scan, keeps its own without one, and keeps everything else. |
| `BacktestExact.QueuedInDollars` | src/squeeze_hunter/backtest/runner.py:229-261 | Tomorrow's queue is sized on today's marked equity and the trades logged so far, every entry with its dollars. |
| `BacktestExact.WorkIsTheAccount` | src/squeeze_hunter/backtest/runner.py:233-245 | The state the gates judge against is the account: marked equity, cash, held shares, value over equity. |
| `BacktestExact.SessionTripsExactly` | src/squeeze_hunter/backtest/runner.py:269-279 | After a session the killswitch is on exactly when its cooldown runs or the drawdown, the three-day figure or the worst gap has reached its limit. |
| `BacktestExact.FallTripsTheKillswitch` | src/squeeze_hunter/risk/killswitch.py:36 | A session that ends the limit or more below any positive reading of the last thirty days has the killswitch on. |
| `BacktestExact.GapTripsTheKillswitch` | src/squeeze_hunter/risk/killswitch.py:40 | So does a position whose low of the day is that far below its entry. |
| `BacktestExact.PayoffIsGainOverLoss` | src/squeeze_hunter/execution/decisions.py:176-182 | The observed payoff times the average loss is the average gain; there is none without both. |
| `BacktestExact.RealizedInDollars` | src/squeeze_hunter/execution/book.py:53-67 | A sale's profit is what it brought less what its shares cost and both commissions, and its return is that over the cost. |
| `Backtest.SaleBalances` | src/squeeze_hunter/execution/book.py:53-67 | A sale's net proceeds are its realized P&L plus the cost of the shares it sold. |
| `BacktestDay.ManageOneKeeps` | src/squeeze_hunter/backtest/runner.py:178-227 | Managing one position keeps agreement and balance, sells at most once, leaves every other position alone, and without a bar today leaves this one alone too. |
| `BacktestDay.SellNowShape` | src/squeeze_hunter/backtest/runner.py:201-227 | A sale of the decided quantity moves cash, lot, book and log together; the position leaves the book exactly when all its shares are sold. |
| `BacktestDay.SoldBalances` | src/squeeze_hunter/backtest/runner.py:204-227 | A sale, halve or exit, keeps the ledger balanced. |
| `BacktestDay.FillNotReplaced` | src/squeeze_hunter/backtest/runner.py:205 | A sell fill is zero only when its reference is, so the fallback never changes the price. |
| `BacktestDay.DecisionForRunner` | src/squeeze_hunter/backtest/runner.py:193-203 | A decision on today's bar sells one to all shares, all exactly on an exit, and a position it leaves open is inside its time stop. |
| `BacktestLoop.RunBacktest` | src/squeeze_hunter/backtest/runner.py:66-292 | The day loop over broker, provider and telemetry objects, updated in place, ends in exactly the state of the run. |
| `BacktestLoop.Runner.TradeSession` | src/squeeze_hunter/backtest/runner.py:112-281 | One trading day, in place, is exactly one session of the run; a clock that would go back changes nothing. |
| `BacktestLoop.Runner.FillPending` | src/squeeze_hunter/backtest/runner.py:125-165 | The fill loop leaves exactly the morning's state, with the queue empty. |
| `BacktestLoop.Runner.FillEntry` | src/squeeze_hunter/backtest/runner.py:128-164 | One queued entry is bought at today's open or skipped, in broker, book and log alike. |
| `BacktestLoop.Runner.FetchToday` | src/squeeze_hunter/backtest/runner.py:131-137 | The bar found by bisection behind the clock is the one dated today in the clocked view, or none. |
| `BacktestLoop.Runner.ManagePositions` | src/squeeze_hunter/backtest/runner.py:176-227 | The loop over the morning's book manages each position exactly once, whatever leaves the book on the way. |
| `BacktestLoop.Runner.ManagePosition` | src/squeeze_hunter/backtest/runner.py:178-227 | One position is carried, held, halved or exited, in book, broker, log, marks and telemetry alike. |
| `BacktestLoop.Runner.SellShares` | src/squeeze_hunter/backtest/runner.py:201-227 | The sale is booked exactly as the session function says. |
| `BacktestLoop.Runner.QueueEntries` | src/squeeze_hunter/backtest/runner.py:229-261 | Marking, exposure, proposals and queueing leave exactly the proposal step's state. |
| `BacktestLoop.Runner.CloseDay` | src/squeeze_hunter/backtest/runner.py:263-281 | The killswitch fed by the bounded telemetry advances exactly as on the full log of readings. |
| `Simulator.CostModelIsConservative` | src/squeeze_hunter/backtest/cost_model.py:15-47 | Buys fill no lower and sells no higher than the reference, at positive prices, and a round trip at one reference never gains. |
| `Simulator.SlippageInDollars` | src/squeeze_hunter/backtest/cost_model.py:15-47 | A buy pays and a sell loses the basis points of its price class, more in the opening minutes, and both pay the commission on every share. |
| `Simulator.MarkPriority` | src/squeeze_hunter/broker/simulator.py:203-216 | Today's mark counts before an older one, and an older one before the cost. |
| `Simulator.BuyInFigures` | src/squeeze_hunter/broker/simulator.py:80-114 | A buy pays its shares and commission at the limit, else the lot's cost, else one; shares and cost of the lot grow by the purchase; no gain is booked and no other ticker moves. |
| `Simulator.SaleInFigures` | src/squeeze_hunter/broker/simulator.py:116-156 | A sale moves cash, lot and booked gain so that cash and lots at cost, less gains, stay what they were; a lot sold out is forgotten with its mark. |
| `Simulator.MarkedInFigures` | src/squeeze_hunter/broker/simulator.py:203-216 | Marking remembers every positive mark and forgets none, and each lot counts at today's mark, else the remembered one, else its cost. |
| `Simulator.SimulatorBroker.SubmitBuy` | src/squeeze_hunter/broker/simulator.py:80-114 | Cash falls by gross plus commission and the lot is opened or merged at the average cost. |
| `Simulator.SimulatorBroker.SubmitSell` | src/squeeze_hunter/broker/simulator.py:116-156 | A sale above the holding raises and changes nothing; any other moves cash, lot, realized P&L and, when the lot closes, its last mark. |
| `Simulator.SimulatorBroker.MarkToMarket` | src/squeeze_hunter/broker/simulator.py:203-216 | Equity is cash plus every lot at its mark, falling back to the last mark and then to cost; positive marks are remembered. |
| `Simulator.SimulatorBroker.RememberMarks` | src/squeeze_hunter/broker/simulator.py:203-216 | Every positive mark replaces the remembered one and no other is forgotten. |
| `BarReplay.BacktestProvider.FetchBars` | src/squeeze_hunter/data/providers/backtest.py:138-159 | Bisection gives exactly the bars from `start` to the earlier of `end` and the clock, the empty cases included, and never a bar after the clock. |
| `BarReplay.BacktestProvider.AdvanceTo` | src/squeeze_hunter/data/providers/backtest.py:30-33 | The clock moves forward only; going back raises and changes nothing. |
| `BarReplay.BacktestProvider.Bars` | src/squeeze_hunter/data/providers/backtest.py:64-105 | The memoised partition is always what preparing the cache would give. |
| `BarReplay.SliceIsFilter` | src/squeeze_hunter/data/providers/backtest.py:156-159 | The slice between the two bisection points is the filter on the time window. |
| `BarReplay.BisectLeft` | src/squeeze_hunter/data/providers/backtest.py:157 | The index splits a chronological list into the bars before the time and the rest. |
| `BarReplay.BisectRight` | src/squeeze_hunter/data/providers/backtest.py:158 | The index splits a chronological list into the bars up to the time and the rest. |
| `BarReplay.SortBarsSorts` | src/squeeze_hunter/data/providers/backtest.py:73-74 | Preparation is a chronological permutation of the bars. |
| `BarReplay.PreparedInOrder` | src/squeeze_hunter/data/providers/backtest.py:64-105 | A prepared partition is the bars of its rows, each once, in chronological order. |
| `BarReplay.ParsedRowByRow` | src/squeeze_hunter/data/providers/backtest.py:83-103 | Row by row, a row with a time gives its bar and any other nothing, in storage order. |
| `BarReplay.SortThenCut` | src/squeeze_hunter/data/providers/backtest.py:64-105 | Sorting and then cutting at a time is sorting what is before the cut: the past does not depend on the future. |
| `BarReplay.SamePastSamePrepared` | src/squeeze_hunter/data/providers/backtest.py:64-105 | Partitions that agree up to a time are prepared into lists that agree up to it. |
| `BarReplay.ToBar` | src/squeeze_hunter/data/providers/backtest.py:88-102 | High and low are widened so that they bound open and close for any row. |
| `Slicing.BuildTwapPlan` | src/squeeze_hunter/execution/slicing.py:74-117 | The plan has the smaller of `n_slices` and `total_qty` slices, each of at least one share, adding up to the total, evenly spaced from the offset, sizes differing by less than the number of slices, with interpolated aggression and the matching limit. |
| `Slicing.PlanStaysInWindow` | src/squeeze_hunter/execution/slicing.py:96-116 | Every slice is inside the window, in order, and limits only get more aggressive. |
| `Slicing.PlanInFigures` | src/squeeze_hunter/execution/slicing.py:74-117 | The plan starts at the offset and ends less than a second a slice before the window does; slice by slice its aggression, its limit from the reference, and its share of the total. |
| `Slicing.ScheduleEnds` | src/squeeze_hunter/execution/slicing.py:21-37 | The schedule starts at the starting and finishes at the ending figure. |
| `Slicing.InterpolatedRises` | src/squeeze_hunter/execution/slicing.py:35-37 | Aggression rises from one end to the other without leaving the range. |
| `Slicing.EscalateAggression` | src/squeeze_hunter/execution/slicing.py:40-56 | The next slice is marketable exactly when at least the threshold share of the submitted ones did not fill. |
| `Oms.Execute` | src/squeeze_hunter/execution/oms.py:39-159 | Whatever the broker does: every slice is sent for its shares at a limit from a quote and from how the slices before it fared; the reported quantity never exceeds what was executed, and quantity and price add up over the reports; when every order ended no two were ever live at once; a prompt broker ends all of them. |
| `Oms.AwaitTerminal` | src/squeeze_hunter/execution/oms.py:161-207 | The report returned is true of the order, exact if terminal; with a prompt broker it is terminal. |
| `Oms.ConfirmCancel` | src/squeeze_hunter/execution/oms.py:189-207 | Twenty polls after the cancel suffice for a prompt broker, and the report is true of the order in any case. |
| `Oms.SendSlice` | src/squeeze_hunter/execution/oms.py:62-119 | One slice sends one order for its shares, at the limit its fresh quote gives; it overlaps only if an earlier order was still live, and is not cancelled before its polls are spent unless one of them goes wrong. |
| `Oms.SliceLimitInFigures` | src/squeeze_hunter/execution/oms.py:62-97 | The mid is that of a two-sided quote, else its last, else the planned price; the limit is the aggression beyond it on the tick grid. |
| `Oms.AggressionInFigures` | src/squeeze_hunter/execution/oms.py:81-89 | A slice goes marketable exactly when at least four in five slices before it did not fill whole, and otherwise at its own part of the way from 5 to 30 basis points. |
| `Oms.AverageBetween` | src/squeeze_hunter/execution/oms.py:156-158 | The average price lies between any bounds on the prices that were counted. |
| `Oms.ReportsAgainstBroker` | src/squeeze_hunter/execution/oms.py:120-158 | Reports never exceed executions; final reports add up to them exactly, and priced ones to the amount paid. |
| `FifoLots.HitRateAndPayoff` | src/squeeze_hunter/backtest/metrics.py:80-124 | The loops over the log give exactly the summary of the FIFO-matched returns. |
| `FifoLots.MatchSale` | src/squeeze_hunter/backtest/metrics.py:93-107 | The inner loop ends for any quantities and leaves exactly the matched lots and returns. |
| `FifoLots.LotsAreTheQueue` | src/squeeze_hunter/backtest/metrics.py:84-107 | After any log with positive buys the open lots, expanded to single shares, are the queue of shares with sold ones popped from the front. |
| `FifoLots.MatchPopsTheQueue` | src/squeeze_hunter/backtest/metrics.py:93-107 | A sale's chunks are exactly the shares popped and what is left is the rest; shares sold beyond those held are ignored. |
| `FifoLots.SaleMatchesPoppedShares` | src/squeeze_hunter/backtest/metrics.py:93-107 | After any log with positive buys, the chunks a sale is matched with are, share by share, the ones popped from the front of the queue of shares held. |
| `FifoLots.SharesConserved` | src/squeeze_hunter/backtest/metrics.py:84-107 | Bought shares are matched shares plus open shares. |
| `FifoLots.ReturnsAreScaleFree` | src/squeeze_hunter/backtest/metrics.py:97-102 | Trading k times the shares at c times the prices gives the same returns, hit rate and payoff. |
| `FifoLots.SummaryMeaning` | src/squeeze_hunter/backtest/metrics.py:108-124 | The hit rate is between 0 and 1; the payoff is infinite exactly with gains and no losses, and positive exactly with both. |
| `FifoLots.SummaryInFigures` | src/squeeze_hunter/backtest/metrics.py:108-124 | The hit rate times the number of returns is the number above zero, and the payoff times the average loss is the average gain. |

## Left out

- Sell submissions that raise after the order went live, and brokers without `get_open_orders`, whose cancels the source trusts.
- Networks, files, alerts, metrics endpoints, the command line, scheduling, configuration parsing and database migrations.
- Factor computation, scoring, classification and universe filtering: the scan and the gate context are arbitrary functions of the bars up to the clock, with the other datasets held fixed.
- The provider's short-interest, earnings, options and sentiment queries.
- Sharpe, Sortino, deflated Sharpe, shuffle tests, walk-forward runs and captured events: library numerics or single-branch checks.
- Time zones, exchange calendars and business-day arithmetic: timestamps are whole seconds, sessions are an increasing list of days, and the three-day cutoff is a function.
- Floating-point rounding, NaN and infinite values: prices are `real`, and the finiteness check of a quote becomes part of its positivity.
- The text of snapshots: rows are values; JSON, ISO timestamps and file atomicity are not part of this model, nor are order side, purpose and free-form metadata beyond score, setup and size.
- The sim-mode fallback to a cached close for an entry quote (entries.py:159-162), and the premarket step that builds the plan around the shared sizing core.
- Lock waiting and task cancellation: each claim and release of a ticker is one atomic step.
- A sell desk and its daemon are modelled per ticker, the class version over a map of desks; one ticker's orders never concern another.
- EntryRuns.EntriesSettledExactlyOnce: the broker reports an order exactly and never reuses an id; orders sent after the last snapshot before a crash are forgotten by the state, so they are outside the submitted ones. A sale is one step that takes the same shares off book and broker; sales that do not are the subject of `ExitRuns`.
- Runtime.TickManagesExactly: a submission that raises (entries.py:173-175) ends a tick before the stops too and is not part of this model, nor are the ticks skipped outside the session or while another runs.
- Runtime.EarlyFillsAreCountedTwice: the broker holds what these orders bought less what the daemon sold; holdings from elsewhere are not part of this model.
- ExitRuns.LiveSellsBounded: the account holds no shares from elsewhere when the run starts, and all its sells are the daemon's.
- KillswitchController.Controller.Evaluate: from a coherent state, as every run keeps it; a restored state that is not is the subject of `Killswitch.NextStepPutsRight`.
- Telemetry.PortfolioTelemetry.RecordEquity: readings come in time order; the fallback for restored state without daily peaks (telemetry.py:95-100) is not part of this model.
- Telemetry.PortfolioTelemetry.Last3DaysPnlPct: the window must be shorter than the 60 days kept, as a few business days are.
- Oms.Execute: the waiting time of a slice is given as a number of polls; a submission that raises ends the original run and is not modelled; the broker object holds the orders of one plan.
- BacktestTheorems.NoLookahead: gate and scan inputs other than bars are the same in both histories.
- BacktestTheorems.LedgerOverRuns: cost parameters are sane (non-negative, slippage below 100%) and the limits non-negative, as configured.
- Backtest fills have no dollar cap: the runner buys at least one share (runner.py:141), so only the proposed size is inside the position cap.
- FifoLots.LotsAreTheQueue: buys have positive quantities, as every logged buy has; the matching loop itself is modelled for any quantity.
- The decision log, the per-ticker realized P&L of the simulator as a theorem, and option fills.
- Drift messages: only whether a ticker drifted and how; a holding without any price is reported on every pass.
