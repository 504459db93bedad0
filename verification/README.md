# StratTraderPro: verified models of its stateful kernels

This project models the parts of StratTraderPro where state and arithmetic decide the outcome, and proves
properties of them: the walk-forward backtester, the fill ledger with its stream, broker double and
reconciler, the audit hash chain, the kill switch, the feature-flag cache, the `[screen]` parser and the
sizing arithmetic. Code of the repository that works by changing things step by step appears as classes and
loops, each tied by its postconditions to a function of the old state; the properties are proved about those
functions, mostly as statements over every run.

How the files follow the repository:

- `Replay` is the bar machine, `ReplayBook` an independent account of what an order should have bought and
  when it should have left, `ReplayRun`, `ReplayMoney` and `ReplayTrades` the proofs, `ReplayEngine` the
  objects that the source mutates. `WalkForward`, `Stats`, `Sizing` and `Pbo` are their namesakes.
- `Positions` is average-cost arithmetic, `Ledger` ingest as a function on tables, `LedgerDb` the service that
  mutates them, `LedgerOrders` and `LedgerConfluence` what deliveries do to orders and positions.
  `FakeBroker` and `FakeBrokerAdapter` are the reference broker; `FillWire`, `FillStream`, `FillSafety`,
  `FillRetries` and `FillIngest` the consumer group; `Reconcile` the reconciler.
- `AuditChain` is hashing and verification, `AuditEmit` the concurrent protocol, `AuditVerifier` the writer
  and verifier as they run. `KillSwitch` is the kill switch with whole transactions and `KillSwitchRace` with triggers that
  overlap; `FlagStaleness` is the interleaving of flag reads and flips, `Flags` one process of it, with stores
  that fail.
- `ScreenText` and `Screen` are the parser, `ScreenErrors` what its errors name, `ScreenRender` the way back from
  criteria to text.
- What the leaves of these models compute is proved in plain numbers, without the functions the models share:
  `ReplayPlain` for exits, fills and order sizes, `SizingPlain` for sizes and the ATR, `WalkForwardPlain` for windows
  and curves, `LedgerSides` for the direction of a fill, `KillSwitchPlain` for losses and the reach of a halt,
  `ScreenPlain` and `ScreenValues` for lines, numbers, values and what the vendor is sent.

Conventions. Money, prices and ratios are exact reals; days, bars and times are integers. Tables are
sequences and maps, a transaction is one step unless the step is what matters. A few fields only remember
history and say so where they are declared: the bar after an order's signal, which entries the publisher
wrote, which ingests committed and failed, when the database last said what a cache holds, and the log of
polls. Where the source takes the first of several matching rows, its order is that of a random key; here it is
table order. Client order ids are unique, so this matters only for orders that share a broker order id and for
halts of one scope that a race has duplicated. Clocks, failures of stores and brokers, the parameter sweep and the strategy adapter are parameters.
Sharpe ratios are compared through their signed squares, so that no square root is needed.

Where the code does not do what its documentation, or a natural reading, says:

- A stop or target that hits while an entry is still filling charges no entry commission; a forced close does.
- A fill first delivered after a later cumulative count was taken is counted twice, so the filled quantity is
  reliable exactly for deliveries in order; and a terminal fill overwrites CANCELLED and REJECTED.
- An event that only its broker order id can place is lost if it arrives before the event that brings the id.
- A stream entry can fail more than five times: once more for each crash, or each missing answer of the
  dead-letter stream, after the worker has given it up. Increment and expiry of the attempt counter share one
  handler, so a counter that rose while its expiry failed reads as a first try.
- The reference broker books a scripted fill of zero or negative quantity that the ledger ignores.
- A drift of a symbol without position row stays open once the broker stops listing it, and heals at once
  when it comes back, though the reconciler's documentation asks for two consecutive drifts.
- The row lock of a halt trigger covers rows that exist; two triggers that both looked first create two halts,
  which the documentation says cannot happen; there is one halt per scope exactly while no trigger writes after
  another halt of its scope was committed behind its look. A daily-loss trigger that reuses yesterday's halt does not lock
  the user today.
- A flag override can be older than both cache lifetimes by the delays of two resolves, not of one.
- Cutting the tail off the audit log verifies; only the remembered head tells.

## Model

| member | source | states |
|---|---|---|
| ReplayMoney.MoneyConserved | backend/apps/backtest/replay_engine.py:218-304 | at the end of every bar of every run, cash is the initial cash plus all closed profit minus the cost and entry commission of the open position |
| ReplayMoney.EquityConserved | backend/apps/backtest/replay_engine.py:244-304 | every recorded equity value is the initial cash plus the profit of the trades closed by then plus the open gain at that close, and nothing recorded is rewritten later |
| ReplayMoney.EndsFlat | backend/apps/backtest/replay_engine.py:290-304 | no shares are held after the last bar, so the final equity is the initial cash plus the profit of all trades |
| ReplayMoney.StartsAtInitialCash | backend/apps/backtest/replay_engine.py:207-304 | nothing can be bought on the first bar, so every curve starts at the initial cash |
| ReplayTrades.NoLookAhead | backend/apps/backtest/replay_engine.py:244-369 | two runs of equal length that agree on bars up to k and on signals before k have the same equity up to k and the same trades exited by k, with production sizing and its ATR included |
| ReplayTrades.RunCausal | backend/apps/backtest/replay_engine.py:244-317 | the whole machine state before bar k depends on nothing from bar k on |
| ReplayRun.RunKeepsBook | backend/apps/backtest/replay_engine.py:244-317 | after any number of bars the machine agrees with an independent order book: shares, cost, average, exits and excursions are those of the order placed by the signal, and the exposure count is the number of closes with shares |
| ReplayBook.FillsRespectCap | backend/apps/backtest/replay_engine.py:258-280 | a fill is at most the volume cap of its bar and at most what is missing, costs that bar's slipped open, happens only in the five bars after the signal and only while the order is unfinished |
| ReplayTrades.TradesByTheBook | backend/apps/backtest/replay_engine.py:218-304 | each trade of a finished run has the quantity, price, excursions and profit its order's book prescribes; filled plus cancelled is the target; the closes held, summed over trades, are the exposure bars |
| ReplayTrades.TradesDisjoint | backend/apps/backtest/replay_engine.py:253-299 | an order begins only after every earlier trade has exited |
| ReplayTrades.ExitInsideBar | backend/apps/backtest/replay_engine.py:282-299 | every trade of a finished run left, before slippage, at a price between its bar's low and high, and a stop, target or forced exit lies between the recorded adverse and favourable excursions |
| ReplayTrades.EntryCommissionCharged | backend/apps/backtest/replay_engine.py:275-299 | when a trade of a finished run paid its entry commission: exactly unless a stop or target took it out while its order was still filling and the commission is not zero |
| ReplayTrades.StoppedOrderPaysNoEntryCommission | backend/apps/backtest/replay_engine.py:282-288 | a concrete run whose only trade is stopped out mid-fill and pays no entry commission |
| ReplayPlain.ExitsAtItsLevels | backend/apps/backtest/replay_engine.py:282-349 | every trade of a finished run that was not sold on a signal leaves as STOP exactly if its last bar's low is at or below average·(1−stop), as TARGET exactly if it is not and the high is at or above average·(1+target), at the level or the open beyond it less slippage; a signal sells at the open and the end of the data at the close |
| ReplayPlain.HeldBetweenItsLevels | backend/apps/backtest/replay_engine.py:282-349 | on every earlier bar on which a trade held shares the low stayed above the stop level and the high below the target level |
| ReplayPlain.FillsInNumbers | backend/apps/backtest/replay_engine.py:258-274 | what an order buys on each bar: the lesser of what is missing and the bar's share of its volume, on five bars at most, never a crumb, at the open plus slippage |
| ReplayPlain.TradeInNumbers | backend/apps/backtest/replay_engine.py:218-242 | a trade's profit is its proceeds less what its fills cost less both commissions, each so much an order and so much a share; orders come from entry signals and signal exits from exit signals |
| ReplayPlain.OrderSize | backend/apps/backtest/replay_engine.py:352-369 | an order asks for one share, or with production sizing for the largest whole number whose loss at each stop and whose exposure the cash allows |
| ReplayEngine.ReplayWindow | backend/apps/backtest/replay_engine.py:169-323 | the imperative replay returns the specified run; its curve starts at the initial cash and ends at initial cash plus total profit |
| ReplayEngine.Replayer.StepBar | backend/apps/backtest/replay_engine.py:244-317 | one pass of the bar loop, phase by phase, is one step of the specified machine |
| ReplayEngine.Replayer.Close | backend/apps/backtest/replay_engine.py:218-242 | closing appends the trade and moves exactly its proceeds less the exit commission into cash |
| ReplayEngine.Replayer.FillAtOpen | backend/apps/backtest/replay_engine.py:258-280 | one fill attempt changes position and cash as specified, cancels an order that filled nothing and charges the entry commission on completion |
| ReplayEngine.Replayer.ForceClose | backend/apps/backtest/replay_engine.py:290-299 | the last bar sells what is held and first charges the entry commission of an unfinished order |
| ReplayEngine.Position.Attempt | backend/apps/backtest/replay_engine.py:258-274 | the position object after one attempt is the specified one, and the money spent is the growth of its cost |
| WalkForward.ComputeWindows | backend/apps/backtest/wf.py:59-73 | the windows are exactly the evenly spaced ones that fit, in order, and the next one does not fit |
| WalkForward.WindowsTile | backend/apps/backtest/wf.py:59-73 | with step equal to test length the test windows follow each other without gap or overlap and leave fewer than one test length at the end |
| WalkForward.BarsTile | backend/apps/backtest/wf.py:109-115 | tiling windows split the bars into consecutive runs |
| WalkForward.WindowMask | backend/apps/backtest/replay_engine.py:185-200 | a replay sees exactly the bars dated in its half-open window |
| WalkForward.ReturnsTelescope | backend/apps/backtest/wf.py:81-86 | the compounded returns of a segment are its last value over its first |
| WalkForward.SortKeeps | backend/apps/backtest/wf.py:85 | sorting the returns permutes them and changes no compounded total |
| WalkForward.ConcatOos | backend/apps/backtest/wf.py:76-87 | the curve is the running compound of all segment returns in day order; its last value is the initial cash times the product of the segments' own ratios |
| WalkForward.SegmentIsItsTrades | backend/apps/backtest/replay_engine.py:244-304 | a window's last-over-first equity ratio is one plus its total trade profit over the initial cash |
| WalkForward.RunWalk | backend/apps/backtest/wf.py:90-124 | the out-of-sample curve ends at the initial cash times the product over replayed windows of one plus window profit over initial cash, also when the walk is cancelled |
| WalkForward.NoDayCountedTwice | backend/apps/backtest/wf.py:76-124 | when steps are at least the test length no day is counted twice and the gathered returns are already in strict day order |
| WalkForwardPlain.WindowSpans | backend/apps/backtest/wf.py:59-73 | each window trains right up to its test, for the training length or from the very start, tests for the test length, and begins one step after the window before |
| WalkForwardPlain.TestSees | backend/apps/backtest/wf.py:112-115 | the replay of a window is given all bars and the signals generated for it, and trades on exactly the bars of its test span |
| WalkForwardPlain.CurveIsDatedEquity | backend/apps/backtest/replay_engine.py:301-319 | the curve of a window is the replay's equity, each value dated by its bar |
| WalkForwardPlain.ReturnsMean | backend/apps/backtest/wf.py:79-84 | a return belongs to the later of two days and takes the earlier value to the later |
| WalkForwardPlain.CurveSteps | backend/apps/backtest/wf.py:85-87 | the out-of-sample curve begins with the initial cash and its first return and takes one return after the other |
| Stats.ReturnIsExpectancy | backend/apps/backtest/stats.py:53-54 | the total return times the initial cash is the expectancy times the number of trades |
| Stats.ExpectancyAccounts | backend/apps/backtest/stats.py:110-129 | expectancy times trade count is the total profit |
| Stats.AveragesAccount | backend/apps/backtest/stats.py:110-129 | average win and average loss, weighted by their counts, add up to the total profit |
| Stats.ProfitFactorSign | backend/apps/backtest/stats.py:110-129 | there is a profit factor exactly when something was lost, and it exceeds one exactly when the total is a profit |
| Stats.WinsAndFactor | backend/apps/backtest/stats.py:110-129 | the win percentage counts the trades with a profit, and the profit factor times what was lost is what was won |
| Stats.DrawdownIsWorstChange | backend/apps/backtest/stats.py:26-30 | for a curve that starts above zero the drawdown at a bar is never positive, is attained from the peak, and is the worst relative change into the bar from any positive one while equity is not negative and the mildest once it is; it is a total loss exactly when nothing is left |
| Sizing.Atr14FromBars | backend/apps/backtest/replay_engine.py:40-62 | the backtester's loop computes the mean true range of at most fifteen bars ending at the given bar |
| Sizing.Atr14Live | backend/apps/risk/integration.py:75-87 | the live form, reading bars newest first, equals the backtester's on the same bars |
| Sizing.Atr14Causal | backend/apps/backtest/replay_engine.py:40-62 | the ATR at a bar depends on no later bar |
| Sizing.AcceptedWithinCeilings | backend/apps/risk/sizing.py:93-175 | an accepted size is a positive whole number of lots, below the boosted risk size and the position, leverage and requested ceilings at once, and with any more lots it would be above one of them |
| Sizing.AcceptedRiskBounded | backend/apps/risk/sizing.py:93-175 | the money lost at the stop never exceeds the risk budget without a sentiment boost, and never more than a tenth over it with one; which stop that is, SizingPlain.LossAtEveryStop says from the inputs |
| Sizing.SizeMonotone | backend/apps/risk/sizing.py:93-175 | more equity, a lower price or a smaller drawdown never sizes smaller |
| SizingPlain.RejectedOutright | backend/apps/risk/sizing.py:93-113 | exactly when a size is refused for the regime, its side or the hard stop |
| SizingPlain.LargestThatFits | backend/apps/risk/sizing.py:93-175 | an accepted size is the largest number of whole lots that keeps the loss at every stop, the exposure limits and the request, all in terms of the inputs; it is zero only if not even one lot does |
| SizingPlain.LossAtEveryStop | backend/apps/risk/sizing.py:115-175 | an accepted quantity loses no more than the risk budget at the given stop, at the volatility stop, and at two per cent of the price where there is neither |
| SizingPlain.Atr14IsMean | backend/apps/backtest/replay_engine.py:40-62 | the ATR at a bar is the mean of the fourteen true ranges up to it, or of as many as there are, each the largest of a bar's range and its distances from the close before |
| Pbo.ProbabilityOfOverfitting | backend/apps/backtest/pbo.py:26-78 | the block-additive computation returns the value of the plain definition: the share of all half-size block choices whose in-sample best lands in the bottom half out of sample; with the undefined and error cases in the source's order |
| Pbo.FillMembership | backend/apps/backtest/pbo.py:50-54 | the matrix filled in place holds one exactly where the block belongs to the split |
| Pbo.TrainSetsAreSplits | backend/apps/backtest/pbo.py:50-51 | the enumeration lists every half-size choice of blocks exactly once and is closed under swapping train and test |
| Pbo.DotIsKept | backend/apps/backtest/pbo.py:44-63 | a membership row times the block sums is the sum over the rows the split keeps |
| Pbo.TotalSplits | backend/apps/backtest/pbo.py:47-65 | total minus train is the sum over the rows the split leaves out |
| Pbo.FastIsPlain | backend/apps/backtest/pbo.py:81-90 | mean and variance from sums are those of the sample itself; the variance is never negative, so the clip does nothing |
| Pbo.FastColumn | backend/apps/backtest/pbo.py:43-68 | for every split both fast scores of a combo are the scores of its in-sample and out-of-sample rows |
| Pbo.ScoreOrdersSharpe | backend/apps/backtest/pbo.py:84-90 | comparing the scores used here is comparing mean over standard deviation |
| Pbo.RankInUnitInterval | backend/apps/backtest/pbo.py:75-76 | the relative rank lies in [0, 1] and is zero for a combo without variance |
| Pbo.NoVarianceRanksLast | backend/apps/backtest/pbo.py:70-77 | a combo without variance is in-sample best only if all are, and out of sample it counts as overfit |
| Pbo.PboInUnitInterval | backend/apps/backtest/pbo.py:77-78 | the result lies in [0, 1] |
| Pbo.OverfitMeans | backend/apps/backtest/pbo.py:70-77 | a split counts as overfit exactly if the first of the in-sample best beats no more than half of the others out of sample |
| Pbo.DefinedWhen | backend/apps/backtest/pbo.py:33-37 | there is no result with fewer than ten combos or two rows a block, and an odd or zero number of blocks is an error only otherwise |
| Positions.AccountingConserves | backend/apps/orders/services.py:95-116 | through adds, reductions, flips and flats, quantity times average cost minus the net amount paid is the realised profit |
| Positions.RealisedPlusUnrealised | backend/apps/orders/models.py:177-181 | at any mark, realised plus unrealised profit is the gain of the executions themselves |
| Positions.AverageCostAmongOpeningPrices | backend/apps/orders/services.py:101-112 | while shares are held the average cost lies between the lowest and highest opening price since the last flat or flip; flat costs zero |
| Ledger.IngestKeepsInv | backend/apps/orders/services.py:157-187 | one event keeps the ledger invariant: one row per account and execution id, and every position is what its rows, each once, make of a flat one |
| Ledger.LedgerPositionsAccount | backend/apps/orders/services.py:127-232 | after any deliveries every position row accounts for all its money and its cost lies among its opening prices |
| LedgerDb.OrderService.ApplyFillToPosition | backend/apps/orders/services.py:95-116 | the four branches that update a row in place compute the specified position |
| LedgerDb.OrderService.IngestFillEvent | backend/apps/orders/services.py:127-232 | the imperative ingest leaves the specified tables and reports the specified outcome; an order without account fails and changes nothing |
| LedgerDb.OrderService.ReconcilePositions | backend/apps/orders/services.py:235-265 | both loops leave exactly the snapped positions and count the rows that differed |
| LedgerDb.SnapConverges | backend/apps/orders/services.py:235-265 | after a snap every row of the account has the broker's quantity and cost or is flat, other accounts are untouched, and a second snap changes nothing |
| LedgerSides.ExecutionMoves | backend/apps/orders/services.py:92-187 | a newly recorded execution moves its order's position up by its quantity for BUY, BUY_TO_OPEN and BUY_TO_CLOSE, down for the three selling sides, and no other position |
| LedgerSides.OthersMoveNothing | backend/apps/orders/services.py:132-187 | redeliveries, notices, empty fills and events without order or account move no position |
| LedgerSides.OpenedAndClosed | backend/apps/orders/services.py:92-116 | a flat position opened and closed with one quantity, long or short, is flat again at no cost |
| LedgerOrders.FilledNeverDecreases | backend/apps/orders/services.py:171-195 | under any sequence of events the filled quantity never decreases |
| LedgerOrders.FilledIsLargestCumulative | backend/apps/orders/services.py:171-195 | for any in-order subsequence of the executions, with gaps, replays and events of other orders in between, the filled quantity is the largest cumulative quantity delivered |
| LedgerOrders.ExactIffInOrder | backend/apps/orders/services.py:171-195 | over any stream of deliveries the filled quantity is, after every one of them, the largest cumulative quantity delivered if and only if the executions come in order, gaps and replays aside |
| LedgerOrders.LateFillCountsAgain | backend/apps/orders/services.py:173-195 | a first delivery whose cumulative quantity is already counted is added again |
| LedgerOrders.DroppedThenLate | backend/apps/orders/services.py:173-195 | three executions of one share with the second delivered last count four |
| LedgerOrders.FilledIsAbsorbing | backend/apps/orders/services.py:197-213 | once an event has marked an order FILLED no later sequence of events unmarks it |
| LedgerOrders.FilledLeftOnlyWhenShort | backend/apps/orders/services.py:198-204 | an order leaves FILLED exactly through a terminal fill that leaves it short |
| LedgerOrders.CancelledIsNotAbsorbing | backend/apps/orders/services.py:198-212 | CANCELLED and REJECTED are left exactly through a terminal fill |
| LedgerOrders.StoppedUntilFill | backend/apps/orders/services.py:205-212 | a cancel or reject stops a live order, and it stays stopped through everything but a terminal fill |
| LedgerConfluence.QuantityIsSumOfFills | backend/apps/orders/services.py:101-116 | a position's quantity is the signed sum over the distinct execution ids recorded |
| LedgerConfluence.QuantityConfluent | backend/apps/orders/services.py:157-174 | two deliveries of the same set of events, in any order and with any repetitions, give every position the same quantity |
| LedgerConfluence.BrokerIdsAreOrderDependent | backend/apps/orders/services.py:138-153 | an event placed only by its broker order id is lost when it comes before the event that brings the id |
| LedgerConfluence.RecordedIffNamed | backend/apps/orders/services.py:132-187 | a new execution, whatever was delivered before, is recorded if and only if its client id, or else its non-empty broker id, names a row at that moment and that row has its account |
| LedgerConfluence.RecordedIffBrought | backend/apps/orders/services.py:132-187 | after events that client ids can place, a new execution is recorded if and only if its client id is an order's or its broker id is the last one that those events, or else the placement, gave to some order |
| LedgerConfluence.FirstReportCounts | backend/apps/orders/services.py:157-174 | two different reports under one execution id end with five shares or three, whichever came first |
| FakeBroker.LedgerSimulatesBroker | backend/apps/brokers/fake.py:132-302 | over every run of scripted orders and flattens the ledger's quantity and cost are the broker's own, and its mark too while shares are held |
| FakeBroker.PlaySnoc | backend/apps/brokers/fake.py:132-260 | a run of the reference broker does one placement or flatten after the other, each from where the last one ended |
| FakeBroker.PlacementsMirror | backend/apps/brokers/fake.py:132-302 | over placements alone the ledger's positions are the broker's own in quantity, cost and mark, flat ones included |
| FakeBroker.FillInStepIff | backend/apps/brokers/fake.py:178-302 | one scripted fill of any quantity keeps ledger and broker in step exactly if it is positive, or zero at a price that changes nothing |
| FakeBroker.PlacedOrderStatus | backend/apps/brokers/fake.py:132-221 | an order placed inline ends REJECTED, SUBMITTED, PARTIAL or FILLED exactly by what its script fills, with the broker's filled quantity |
| FakeBroker.FlattenThenReconcileIsFlat | backend/apps/brokers/fake.py:226-260 | after a flatten and a reconcile every ledger row of the account is flat and a second reconcile changes nothing |
| LedgerSides.BookMoves | backend/apps/brokers/fake.py:276-302 | the reference broker's own book moves the same way as the ledger, side by side |
| LedgerSides.FlattenCloses | backend/apps/brokers/fake.py:226-260 | the closing event of a flatten carries the opposite side and the whole quantity, at the mark or the default price, under its own id |
| LedgerSides.ScriptedOrNot | backend/apps/brokers/fake.py:132-175 | the script is followed in order, and an unscripted order fills whole at its limit, or else its stop, or else the default price |
| FakeBrokerAdapter.Adapter.PlaceOrder | backend/apps/brokers/fake.py:132-221 | the scripted placement emits the specified numbered events, applies them inline and keeps book, script and open orders as specified |
| FakeBrokerAdapter.Adapter.ApplyPosition | backend/apps/brokers/fake.py:276-302 | the broker's own position update computes its specified book entry |
| FakeBrokerAdapter.Adapter.FlattenAll | backend/apps/brokers/fake.py:226-260 | one closing event and one acknowledgement for each held symbol, every position flat, no open order left |
| FakeBrokerAdapter.Adapter.FlattenAccount | backend/apps/risk/killswitch.py:187-194 | flattening at the broker and then reconciling the ledger is a permitted flatten step of the runs over which ledger and broker agree |
| FillWire.WireRoundTrip | backend/apps/orders/fills.py:49-76 | an event survives the wire except that an option side is coarsened to BUY |
| FillWire.PublishedIsNeverPoison | backend/apps/orders/fills.py:49-76 | whatever the publisher writes can be read |
| FillWire.WireKeepsMeaning | backend/apps/orders/fills.py:49-76 | ingesting the event after the wire does to the ledger what the event itself would have done |
| FillWire.KindNames | backend/apps/orders/fills.py:49-76 | the five kinds travel under their own names and no other text reads as one of them |
| FillWire.SideNames | backend/apps/orders/fills.py:49-76 | a side reads as a sale exactly if it spells SELL in any mixture of capitals |
| FillWire.PoisonIff | backend/apps/orders/fills.py:49-76 | an entry is unreadable exactly if it is no dictionary or has a field of the wrong kind |
| FillWire.NothingReadsAsNothing | backend/apps/orders/fills.py:64-76 | an entry without fields reads as a `new` purchase of nothing with empty names |
| FillSafety.AcknowledgedIsSettled | backend/apps/orders/fills.py:127-187 | in every run, with crashes anywhere and any number of workers, an entry leaves pending only after it was ingested or dead-lettered |
| FillSafety.ExecutionsRecordedOnce | backend/apps/orders/fills.py:127-187 | in every run an execution reported as applied is in the fill table for good, once per account and execution id, and positions follow from the table |
| FillSafety.DeadForAReason | backend/apps/orders/fills.py:108-187 | in every run nothing the publisher wrote is dead-lettered as poison, and nothing is given up before five ingests of it failed |
| FillRetries.RetriesBounded | backend/apps/orders/fills.py:156-187 | in every run, with any number of workers, crashes anywhere and store commands that are done, done without an answer, or not done: an entry fails at most five times, and fewer while it is pending and nobody has given it up, not counting one for each time it was given up and lost, failed at a counter that did not answer, or failed at a second worker |
| FillRetries.SettlesWithinFive | backend/apps/orders/fills.py:156-187 | with one worker, the attempt counter and the dead-letter stream up, and crashes at any step, an entry fails at most five times and once more for each crash between giving it up and acknowledging it; pending outside that gap it has failed fewer times, and without such a crash its counter is exact |
| FillRetries.BoundIsReached | backend/apps/orders/fills.py:156-187 | for every number of such crashes a run reaches that bound |
| FillIngest.DrainCounts | backend/apps/orders/fills.py:190-211 | a drain reports exactly how many entries left the pending list, whatever its stores do |
| FillIngest.RunIsTidy | backend/apps/orders/fills.py:190-211 | in every run each entry is pending at most once, oldest first |
| FillIngest.DrainIsSteps | backend/apps/orders/fills.py:190-211 | a drain is a run of the protocol, so all that every run keeps is kept by every drain; with the stores up, a run of one worker without crash |
| FillIngest.Ingestor.ProcessMessage | backend/apps/orders/fills.py:127-187 | the imperative handler leaves the specified stream, counters, dead letters and tables for every failure of its stores |
| FillIngest.Ingestor.DrainStream | backend/apps/orders/fills.py:190-211 | pending entries are replayed before new ones are read, as specified |
| Reconcile.Reconciler.ApplyReconcile | backend/apps/orders/reconcile.py:56-99 | the loop over the symbols, in whatever order, leaves the specified rows and positions and reports the rows it created |
| Reconcile.RunLeaves | backend/apps/orders/reconcile.py:56-99 | after a run an open drift exists exactly for a compared symbol that drifts for the first time or an uncompared one that had it; never two per compared symbol; a position changes, to the broker's quantity, exactly where the symbol drifts and a drift was open |
| Reconcile.TwoRunsConverge | backend/apps/orders/reconcile.py:56-119 | two consecutive runs on one snapshot leave every compared symbol within tolerance and without open drift |
| Reconcile.VanishedDriftStaysOpen | backend/apps/orders/reconcile.py:64 | a symbol without local row keeps its open drift through any number of runs that do not list it |
| Reconcile.HealIsSecondDriftIff | backend/apps/orders/reconcile.py:56-99 | when a run heals, with any fills since the run before, the drift was the second in a row exactly if the run before compared the symbol |
| Reconcile.StaleDriftHealsAtOnce | backend/apps/orders/reconcile.py:64-98 | a concrete run: five shares listed, nothing listed and no drift found, five shares listed again; the third run heals at once |
| Reconcile.DriftingMeans | backend/apps/orders/reconcile.py:64-68 | a symbol drifts exactly when broker and table are more than a hundredth apart, a missing side counting as nothing |
| Reconcile.HealedRow | backend/apps/orders/reconcile.py:85-117 | a healed row takes quantity, average cost and mark of the broker's, or none of either at no cost |
| Reconcile.OtherAccountsUntouched | backend/apps/orders/reconcile.py:56-99 | a run changes no position and no drift of another account |
| AuditChain.SameHeadSameHistory | backend/apps/audit/verifier.py:60-102 | two tables that verify from genesis and end in the same hash agree row by row in every hashed column, the address up to empty and missing |
| AuditChain.TamperEvident | backend/apps/audit/hashing.py:62-95 | against a known head, a table verifies with that head if and only if it agrees with the original in every hashed column of every row |
| AuditChain.SameHashIffSameColumns | backend/apps/audit/hashing.py:62-95 | two rows that carry their own hash have the same hash exactly if they follow the same row and agree in time, user, actor, event and entity types, entity id, both diffs and user agent, and in the address up to empty and missing |
| AuditChain.EditIsFound | backend/apps/audit/verifier.py:60-102 | where a column of one row of a chain was edited and its hash left alone, verification stops at that row with a hash mismatch |
| AuditChain.TruncationVerifies | backend/apps/audit/verifier.py:60-102 | every prefix verifies on its own, with a different head |
| AuditChain.ApprovesExactlyChains | backend/apps/audit/verifier.py:60-102 | a walk approves exactly the rows that form a chain from its start |
| AuditChain.ResumedLikeFull | backend/apps/audit/verifier.py:137-154 | a walk resumed after verified rows reaches the verdict of the full walk, whatever follows |
| AuditChain.ResumedTrustsThePast | backend/apps/audit/verifier.py:137-154 | the full walk approves exactly if the resumed one does and the rows before the cursor were a chain up to its hash |
| AuditEmit.LogStaysLinear | backend/apps/audit/services.py:98-145 | under every interleaving of emitters, failed inserts and verifier runs the committed log is one chain from genesis numbered in commit order |
| AuditEmit.TriggerNeverRejects | backend/apps/audit/migrations/0002_chain_triggers.py:26-46 | the linkage trigger never rejects an emitter that holds the lock |
| AuditEmit.ResumeEqualsFullWalk | backend/apps/audit/verifier.py:131-161 | in every untampered run the cursor names a row and its hash, and resuming from it approves like the full walk and ends at the same row |
| AuditVerifier.VerifyChain | backend/apps/audit/verifier.py:60-102 | the loop returns how far the rows form a chain and exactly what is wrong with the next one |
| AuditVerifier.AuditLog.Emit | backend/apps/audit/services.py:98-145 | one emit appends one row with the given columns, the next id and the last hash before it, or nothing, uses up one id, and keeps a sound log sound |
| AuditVerifier.Verifier.RunVerifier | backend/apps/audit/verifier.py:131-174 | the cursor advances only on success and one report row is emitted either way |
| AuditVerifier.EmitIsSteps | backend/apps/audit/services.py:98-145 | an undisturbed emit is a run of the protocol |
| KillSwitch.BlockedIffCovered | backend/apps/risk/killswitch.py:76-98 | orders are blocked exactly when some active halt covers the user and strategy |
| KillSwitch.OneActivePerScope | backend/apps/risk/killswitch.py:104-143 | over every run of whole transactions at most one active halt exists per scope |
| KillSwitchRace.OnePerScopeIffNeverStale | backend/apps/risk/killswitch.py:104-143 | over every run of overlapping triggers, releases, sweeps and polls there is never more than one active halt per scope if and only if no trigger that found none writes after another halt of its scope was committed behind its look |
| KillSwitchRace.UndisturbedIsTrigger | backend/apps/risk/killswitch.py:104-143 | a trigger that writes right after its look is the whole transaction |
| KillSwitchRace.RacingTriggersDuplicate | backend/apps/risk/killswitch.py:107-123 | the run in which two triggers look before either writes ends with two active halts, and releasing one leaves the user blocked |
| KillSwitch.DailyLossHaltHoldsAllDay | backend/apps/risk/killswitch.py:146-168 | an automatic daily-loss halt made today blocks every strategy of its user through everything that happens until the trading day changes |
| KillSwitchRace.DailyLossHaltHoldsThroughout | backend/apps/risk/killswitch.py:104-168 | the same however triggers, releases, sweeps and polls overlap |
| KillSwitch.TriggerLocksIff | backend/apps/risk/killswitch.py:109-118 | when an automatic trigger locks the user for the day: exactly if no daily-loss halt was reused, or the reused one was automatic and made today |
| KillSwitch.TripNeedsBreachesInARow | backend/apps/risk/killswitch.py:246-297 | in every run a trip is the last of the required number of breaching polls of that user, that day and within the hour, with no readable fine poll between |
| KillSwitch.TwoBreachesTrip | backend/apps/risk/killswitch.py:278-297 | two breaching polls within the hour do trip |
| KillSwitchPlain.VerdictMeans | backend/apps/risk/killswitch.py:254-277 | a poll is a breach exactly if the loss is at least a non-zero dollar limit or at least a non-zero percentage of a positive equity, one thousand dollars and five per cent without a profile |
| KillSwitchPlain.LargerLossBreaches | backend/apps/risk/killswitch.py:254-277 | a larger loss on the same equity is a breach whenever the smaller one is |
| KillSwitchPlain.PollMeans | backend/apps/risk/killswitch.py:246-297 | what one poll does to counter and halts, in numbers: nothing to a halted user or without a reading, a reset below the limits, one more breach at or above them and a halt at the required number |
| KillSwitchPlain.TwoLossesStopTheUser | backend/apps/risk/killswitch.py:246-297 | two polls on one day within the hour that both lose the limit stop every strategy of the user |
| KillSwitchPlain.BlockedIffStopped | backend/apps/risk/killswitch.py:76-98 | an order is blocked exactly if an active halt is platform wide, is its user's without strategy, or names its strategy and user |
| KillSwitchPlain.TriggerStops | backend/apps/risk/killswitch.py:104-143 | a trigger blocks exactly those in its reach besides those blocked before |
| KillSwitch.Engine.IsBlocked | backend/apps/risk/killswitch.py:76-98 | the three queries return a reason exactly when a halt covers |
| KillSwitch.Engine.TriggerHalt | backend/apps/risk/killswitch.py:104-143 | creates or reuses the active halt of the scope |
| KillSwitch.Engine.ReleaseHalt | backend/apps/risk/killswitch.py:146-168 | releases exactly an active halt that is not locked today |
| KillSwitch.Engine.UserDailyPnl | backend/apps/risk/killswitch.py:207-243 | a snapshot exists exactly if some account reports positive equity, and sums those accounts only |
| KillSwitch.Engine.CheckDailyLoss | backend/apps/risk/killswitch.py:246-297 | one poll changes halts and counter as specified and says whether it tripped |
| KillSwitch.Engine.ReleaseExpiredL2Halts | backend/apps/risk/killswitch.py:300-310 | the sweep releases exactly the automatic daily-loss halts that are not locked today and counts them |
| FlagStaleness.BoundedStaleness | backend/apps/admin_portal/flags.py:66-122 | in every interleaving an override in use was the database's no longer ago than both cache lifetimes of sixty and thirty seconds plus two read-to-write delays, less the second in which each entry expires |
| FlagStaleness.BothDelaysCount | backend/apps/admin_portal/flags.py:66-110 | the bound is exact in whole seconds: for every delay a run exists that uses an override dropped eighty-eight seconds and two delays before |
| Flags.CallIsSteps | backend/apps/admin_portal/flags.py:66-161 | reading or flipping any flag with the database up is, for every flag, a run of the interleaving machine and leaves what that run leaves |
| Flags.AnswerIsFresh | backend/apps/admin_portal/flags.py:66-122 | after any interleaving of processes, flips and failing Redis writes, the answer for a mutable flag follows from an override the database held no longer ago than eighty-eight seconds and two read-to-write delays |
| Flags.FlagStore.ResolveOverride | backend/apps/admin_portal/flags.py:66-110 | the three layers are asked and refilled in order, with each failure's own fallback |
| Flags.FlagStore.SetFlag | backend/apps/admin_portal/flags.py:138-176 | unknown and environment-only flags are refused untouched; a flip writes database and Redis and drops the local entry |
| Screen.NeverBoth | backend/apps/screener/criteria.py:178-251 | parsing any text returns criteria or errors, never both, and errors in strictly increasing lines |
| ScreenErrors.ErrorsNameTheirLine | backend/apps/screener/criteria.py:178-251 | the errors of a readable block are exactly its offending lines: each error has the problem its line has after the lines before it, every line with a problem has its error, and the line an error names is the line of the description that holds that text |
| ScreenErrors.DuplicateIffGivenEarlier | backend/apps/screener/criteria.py:239-243 | a line is a duplicate exactly if it gives a non-repeatable key that an earlier line gave, good or bad |
| ScreenErrors.SilentIffNoBlock | backend/apps/screener/criteria.py:146-192 | neither criteria nor errors come back exactly when no line opens a block |
| ScreenErrors.DuplicateNamesSecondOpener | backend/apps/screener/criteria.py:154-163 | a second opening line is the one error, and it names that line |
| ScreenErrors.BlockErrorsNameOpener | backend/apps/screener/criteria.py:165-211 | with one opening line: an unclosed block is the one error and names that line, a block over a cap is the one error and names the line on which the tag ends, and otherwise the block is readable |
| Screen.BlockIffALineOpens | backend/apps/screener/criteria.py:57-162 | a block is seen exactly if some line begins with the tag, and a duplicate exactly if two do |
| Screen.BodyEndsAtFirstClose | backend/apps/screener/criteria.py:157-175 | the body runs from the one opening tag to the first closing tag after it |
| ScreenText.NumberRoundTrip | backend/apps/screener/criteria.py:122-143 | the plain notation of an exact decimal parses back to it |
| ScreenPlain.NumberMeans | backend/apps/screener/criteria.py:122-143 | a text is a number exactly if it is a numeral with optional sign and magnitude letter; its value is the digits times the letter's power of ten, up to ten to the eighteenth |
| ScreenPlain.KeysByName | backend/apps/screener/criteria.py:66-92 | each of the fifteen key names reads as its own key |
| ScreenPlain.OnlyKeys | backend/apps/screener/criteria.py:230-235 | no other text is a key |
| ScreenPlain.LineMeans | backend/apps/screener/criteria.py:218-238 | which lines are skipped, which are no entry, which key and value a line gives, and which key names are unknown |
| ScreenPlain.CaseFolds | backend/apps/screener/criteria.py:227 | a key is compared with its capitals made small and nothing else changed |
| ScreenValues.LineCore | backend/apps/screener/criteria.py:220 | what is read of a line is the line without the blanks and returns around it |
| ScreenPlain.AcceptedIsAcceptable | backend/apps/screener/criteria.py:254-347 | every value of a block that parses is of the kind its key asks for and within its limits |
| ScreenPlain.VendorGets | backend/apps/screener/criteria.py:350-374 | each vendor parameter is sent exactly when its criterion was given, with its value, besides the three that are always sent |
| ScreenPlain.EnrichmentGets | backend/apps/screener/criteria.py:376-378 | the local filters kept are those given, with a history of the length asked for or two hundred and sixty days |
| ScreenValues.StripMeans | backend/apps/screener/criteria.py:220-228 | stripping removes the blanks at both ends and nothing else |
| ScreenValues.DotsGiveBoth | backend/apps/screener/criteria.py:327-336 | two numbers around the first two dots are a range unless either is no number or the first is the larger |
| ScreenValues.SignGivesOne | backend/apps/screener/criteria.py:338-347 | `>=` gives the lower bound and `<=` the upper one, a bare sign is refused as strict and anything else as no range |
| ScreenValues.TextMeans | backend/apps/screener/criteria.py:263-277 | a text of at most sixty-four characters and no list is kept as it is, a country as two capitals |
| ScreenValues.FlagMeans | backend/apps/screener/criteria.py:279-284 | a flag is true or false exactly as spelled, in any mixture of capitals |
| ScreenValues.WindowMeans | backend/apps/screener/criteria.py:286-297 | a window is fifty or two hundred, given once each and kept in order |
| ScreenValues.PercentMeans | backend/apps/screener/criteria.py:299-306 | a percentage is accepted exactly from one to a hundred, its sign aside |
| ScreenValues.HistoryMeans | backend/apps/screener/criteria.py:308-315 | a history is accepted exactly if it is a whole number from one to two thousand |
| ScreenValues.LimitMeans | backend/apps/screener/criteria.py:317-324 | a whole limit is brought into one to a hundred |
| ScreenValues.LimitRefuses | backend/apps/screener/criteria.py:320-322 | a limit is refused exactly if it is no whole number |
| ScreenValues.SizeMeans | backend/apps/screener/criteria.py:198 | the size of a text is one to four bytes a character |
| ScreenValues.MarkMeans | backend/apps/screener/criteria.py:187-189 | a byte order mark at the very front is dropped, once |
| ScreenErrors.OpenerMeans | backend/apps/screener/criteria.py:57-58 | a line opens a block exactly if the tag, in any mixture of capitals, is the first thing on it but spaces and tabs |
| ScreenRender.RenderRoundTrip | backend/apps/screener/criteria.py:213-382 | accepted criteria written out canonically and read again give the same criteria, vendor parameters and derived set |
| ScreenRender.LimitIsBounded | backend/apps/screener/criteria.py:317-352 | the limit sent to the vendor is between one and a hundred whatever the author wrote |
| ScreenRender.RangesReachTheVendor | backend/apps/screener/criteria.py:355-363 | a bound reaches the vendor exactly if the author gave it, with its value |
| ScreenRender.DerivedSet | backend/apps/screener/criteria.py:376-378 | the derived keys are those given, and a history length comes along exactly with any of them or on request |
| ScreenRender.ReadBody | backend/apps/screener/criteria.py:213-251 | the loop over the lines computes the specified fold |

## Left out

- Rounding: floating point and fixed decimal columns are exact reals here, and the decimals of a `[screen]`
  block exact decimals.
- WalkForward.RunWalk: needs a non-zero initial cash and equity curves that never pass through zero, where the
  source would produce infinite or missing returns and drop the missing ones.
- WalkForward.ComputeWindows: needs a positive step; with a step of zero or less and a span that fits, the
  source's loop does not end.
- Stats.DrawdownIsWorstChange: asks that the curve starts above zero; Sharpe, Sortino, CAGR, MAR, turnover and exposure
  percentages are left out as expressions over the same series.
- Pbo.ProbabilityOfOverfitting: takes a rectangular matrix of finite numbers and a block count that is not
  negative; an array of another dimension, which the source answers with no result, is not represented.
- FakeBroker.LedgerSimulatesBroker: scripted quantities are positive, since other fills part ledger and broker
  as FakeBroker.FillInStepIff says, and every placed order has its row, with account, symbol and side, before it
  is placed.
- FakeBroker.PlacedOrderStatus, like FakeBroker.PlacementsMirror: scripted quantities are positive.
- LedgerConfluence.QuantityConfluent: asks that a redelivered execution id carries the same order and
  quantity, and that every event can be placed without its broker order id; the counterexamples beside it show
  why. Average cost does depend on the order.
- LedgerConfluence.RecordedIffBrought: every order row has its account, and the earlier events are placed without
  broker order ids.
- LedgerOrders.FilledIsLargestCumulative, like LedgerOrders.ExactIffInOrder, starts from an order with nothing filled and none of the executions
  recorded.
- FillRetries.SettlesWithinFive: assumes that counter and dead-letter stream answer one worker; what each failure
  of theirs, and each further worker, can cost is in FillRetries.RetriesBounded. The expiry of counters after a
  day is not modelled.
- FillWire.WireRoundTrip: an event kind must have its own name, timestamps are not carried, and a decimal's text
  is its value; JSON itself is abstract.
- FillStream: one consumer name, no trimming of the stream; the sweep over all streams, whose key pattern also
  matches dead-letter and counter keys, is replaced by a drain per user.
- Ledger: `resolve_needs_reconcile`, websocket pushes, metrics, audit rows and timestamps of fills.
- AuditChain.TamperEvident: the hash is a free constructor, so collisions do not exist; row ids are not hashed,
  and empty and missing addresses hash alike. Scrubbing and JSON normal form are not part of this model.
- AuditEmit.LogStaysLinear: a transaction that has the lock sees all committed rows, as under read committed.
- KillSwitch.OneActivePerScope: each trigger is one step; overlapping ones are `KillSwitchRace`, where a write
  and its commit are one step.
- KillSwitch.TripNeedsBreachesInARow: the cache may lose or expire a counter but not corrupt it, and polls of one
  user do not overlap. `flatten_user`, market hours and the watcher's own lock are left out: the flatten itself is
  `FakeBroker.FlattenThenReconcileIsFlat`.
- FlagStaleness.BoundedStaleness, like Flags.AnswerIsFresh: the database answers; a read that fails is cached as
  no override and is in `Flags` only.
- Screen.NeverBoth: letters, digits and blanks are ASCII, and an error keeps its cause but not its wording.
- Sizing: the asset-class checks, loaders and decision rows around `compute_size`.
- Django plumbing, REST views, Celery wiring, vendor clients, sweeps and models of market regimes, reports and
  the frontend: no state that these properties depend on.
