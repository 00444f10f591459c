# PolyArena order matching, ledger and sessions

This project models the core of a paper-trading platform for binary options on price candles, and
proves what its parts promise each other.

- **The shadow order book.** A copy of a market's bids and asks is consumed by simulated orders. The
  book as a value and its operations as functions are in `Books.dfy` (with `Ladders`, `Orders`,
  `Matching`, `Passes`, `Exits`); the in-place book with its loops is the class in
  `ShadowOrderbook.dfy`, every method of which is proved to do what the functions say. Over runs
  (`Runs`, `Histories`, `Stream`, `Slippage`): no liquidity is spent twice, the published stream accounts for
  every share, and orders only move forward. What the feed says is what is offered (`Feed`), orders are
  cancelled only for a cause and expire on time (`Expiry`), and brackets fire exactly when they should
  (`Brackets`).
- **The budget walks** that fill orders at the API (`Walks.dfy`): they are optimal, and the engine's
  own sweep agrees with them. **Fees** (`Fees.dfy`) are bounded over any walk.
- **The money ledger** (`Ledger.dfy`): order creation, stream handlers, settlement, sweeper and bot
  pool as functions; the database session that performs them row by row, with commit and rollback, is
  the class in `Database.dfy`. One identity per bot survives every handler in any order and with
  redelivery (`LedgerProofs.dfy`). `Creation` says who is accepted and what is bought, `Payouts` what is
  paid in the end, `Scheduler` when; `UserBalances` and `Funding` build on these, and `Witnesses.dfy`
  holds concrete runs.
- **The order consumer** between engine and ledger (`Consumer.dfy`), and the whole way from the
  engine's events to what the ledger holds: `Delivery.dfy` up to the published messages, `Arrivals.dfy`
  from there, over two streams with replays, clocks and candles. `Positions.dfy` follows the money of a
  position from the API through the engine's exit to settlement.
- **Sessions and calendar**: four computations of candle times agree (`Calendar.dfy`); the registry
  of sessions, its token index and its lifecycle are in `Sessions.dfy`, the classes in
  `SessionManager.dfy`, the laws in `SessionProofs.dfy`, `SessionTheorems.dfy` and, for what the feed's events leave
  behind, `Dispatches.dfy`.

Conventions. Prices, sizes and money are exact reals (prices are positive). Times are whole
microseconds; candle opens are seconds. The clock, exchange candles, resolved tokens and the market
view of a request are parameters. Callbacks and stream messages are returned values. Each public
operation is atomic. Fresh order ids are a precondition, as the source draws them at random.
A trade names its bot by position, and users are their initial balances.

## Where the code and its documentation disagree

The model follows the code. Each point names the members that prove it.

- A level smaller than dust at the best ask stops every BUY that could use the levels behind it
  (`BookTheorems.DustBlocks`, `StuckExactly`); "no crossing" holds exactly as `Passes.NoCrossing` says.
- The fee estimate calls a price of one half the worst case; per unit spent the worst price is one
  third, so the estimate covers the fee only in the range `Fees.Covered`, and an order may leave its
  bot below zero (`Fees.EstimateCoversExactly`, `Funding.OverdraftExactly`, `Funding.OverdraftBound`;
  a case is `Witnesses.BotBelowZero`).
- Fill-or-kill is all-or-nothing exactly when a ceiling is given, or the asks under the cap are worth
  the amount, or there are none (`Walks.FokExactly`; a case is `FokWithoutCeiling`).
- An aggressive LIMIT order loses the part of its amount that the asks up to its limit are not worth,
  if they are worth anything (`LedgerProofs.CreateDrift`; a case is `Witnesses.PartFillLoses`). That
  part is queued with a prefilled message, which is only watched for its bracket
  (`Consumer.QueuedExactly`).
- A replayed fill changes nothing exactly when the trade is finished, or it earns no rebate and does
  not settle the trade this time (`LedgerProofs.FillAgainExactly`); a repeated rebate is
  `Witnesses.RebateRepeats`. A stale fill that arrives after a newer one lowers the shares
  (`Arrivals.StaleExactly`; a case is `Witnesses.StaleFillLowersShares`).
- Placement publishes its fill before the consumer reads the fill levels, so the consumer's own
  message carries none and earns no rebate (`BookTheorems.PlacementTellsItself`,
  `Consumer.PlacementPublished`).
- When a fill and a cancellation of one order are told in one batch, the fill's status already ends
  the tracking and the cancellation is never published (`Consumer.CancelLostExactly`). In a matching
  run this never happens to a LIMIT order and happens to a waiting MARKET order exactly when it is
  filled in part (`LimitKeepsItsCancel`, `MarketLosesItsCancel`); a trade queued for such an order is
  refunded whole at settlement (`LostCancelChain`). The loss is latent: the API queues no MARKET order
  unfilled (`QueuedExactly`), so only a message written to the queue by hand reaches it.
- A prefilled message that cannot be placed is answered like an unfilled one, and the ledger gives back
  the whole amount of a position that was bought (`Consumer.RejectionCancelsPosition`; a case is
  `Witnesses.RejectedBracketRefunds`).
- The realised balance recorded "after a trade settles" is the one stored before the transaction,
  because the database session does not flush on queries (database.py:20). It is right exactly when
  the profits settled so far in the transaction cancel out (`UserBalances.JobRowsLag`; a case is
  `Witnesses.FirstRowLagsSecondDoesNot`).
- Resolved positions are documented to settle with the scheduler, but the scheduler passes them over
  and leaves them to the sweeper (`Scheduler.SettlementLeaves`, `Witnesses.ResolvedIsPassedOver`). One
  due trade with an exit but no entry price stops the scheduled settlement of every trade, each minute,
  and once it is stuck the sweeper too (`Scheduler.SettlementFailsExactly`, `SettlementLeaves`,
  `SweepClearsExactly`); an exit message that overtakes its fill makes one
  (`Witnesses.OvertakingExitBlocks`).
- The exit handler's documentation promises immediate settlement of full exits; the code only records
  them (`Database.Session.HandleBracketExit`).
- Only the first exit of a trade is recorded, while the book may sell a position in parts, the first of
  which may even be empty: the later parts are paid by the candle (`Payouts.LaterExitsAreLost`,
  `PaidInPartsExactly`; a case is `Witnesses.SecondExitUnpaid`).
- The documentation of expiry keeps a partly filled order PARTIAL; the code cancels it
  (`Expiry.ExpiryIsOnTime`).
- Sessions archived from PREFETCH say nothing about their orders (`SessionTheorems.CleanupTellsExactly`).
- Settlement goes on past the third candle ahead, routing does not (`Calendar.CalendarsAgreeExactly`);
  orders never reach that far, as larger offsets are rejected (schemas.py:20).

## Model

| member | source | states |
|---|---|---|
| `Orders.OpenPositionPnl` | services/matching_engine.py:204-268 | while a position is open its total profit and loss is proceeds plus what is held at the bid minus entry cost; it is reported as nothing exactly when no bid is known, nothing is held, or nothing was sold and the bid equals the average entry price |
| `Orders.ClosedPositionPnl` | services/matching_engine.py:204-268 | once everything is sold the total is proceeds minus the cost of the whole position, whatever the bid |
| `Orders.EvolvesTrans` | services/matching_engine.py:198-202 | moving forward (fills and exits never shrink, FILLED and CANCELED absorb, a closed position stays closed, quantity only shrinks to the filled part on cancellation, a recorded slippage reference stays) composes over any number of operations |
| `Matching.SweepOrder` | services/matching_engine.py:977-1053 | the walk keeps the order invariant (status agrees with filled and quantity, cost within limit and cost cap), and its fills account exactly for the change of filled and cost; every fill is at an accepted price |
| `Matching.SweepBook` | services/matching_engine.py:977-1088 | what leaves each price level is exactly what the order filled there; only a remainder below the dust threshold is dropped |
| `Matching.SweepExhausts` | services/matching_engine.py:977-1088 | a walk from the best price ends with the order FILLED or unable to take anything from what is left |
| `Matching.TurnSound` | services/matching_engine.py:790-817 | one order's turn in a pass keeps the order and the book sound and accounts for every change by fills |
| `Matching.TurnLeavesIdle` | services/matching_engine.py:790-817 | after its turn an order is finished or nothing left on its side is of use to it |
| `Matching.MarketIsImmediate` | services/matching_engine.py:797-817 | immediate-or-cancel: a MARKET order stays live exactly when its side is empty and it has no fills, and is then unchanged; otherwise it ends FILLED or CANCELED |
| `Matching.MarketWithinSlippage` | services/matching_engine.py:943-1000 | every fill of a MARKET order lies within its slippage of the best price it first saw, BUY and SELL |
| `Passes.PassSound` | services/matching_engine.py:776-817 | a pass over all orders keeps every order sound and its fills account, price by price, for everything that left either side |
| `Passes.PassLeavesIdle` | services/matching_engine.py:776-817 | after a pass no order could do anything with what is left |
| `Passes.PassMarketUntouched` | services/matching_engine.py:797-817 | between passes a live MARKET order has no fills and no slippage reference |
| `Passes.PassAgain` | services/matching_engine.py:776-817 | a second pass over the result of a pass changes no order and no level |
| `Passes.NoCrossing` | services/matching_engine.py:931-1088 | after a pass a resting LIMIT order, capped or not, reaches a remaining level only if it is a BUY held back: it wants less than dust, the best ask is dust, or its cost cap is used up or pays for less than dust there |
| `Passes.NoCrossingWithoutDust` | services/matching_engine.py:931-1088 | with all asks at least dust to begin with, no resting uncapped LIMIT order crosses after a pass, but for BUY remainders below dust |
| `Passes.TimePriority` | services/matching_engine.py:776-817 | whenever a later order fills at a price, every earlier order of the same side was already done, did not reach the price, or was held back by one of the four named causes |
| `Exits.ExitSound` | services/matching_engine.py:1171-1257 | an exit sells at most what is held, records exactly what it sold, closes the position or empties the bids, and keeps exit price times exited quantity equal to the proceeds |
| `Exits.CumulativePriceOk` | services/matching_engine.py:1217-1235 | the running average over any number of partial exits keeps price times quantity equal to everything received |
| `Exits.ExitEarnsMost` | services/matching_engine.py:1194-1216 | no other way of selling at most the same quantity into the same bids earns more |
| `BookSteps.StepKeepsWell` | services/matching_engine.py:356-1326 | every operation of the book keeps the whole invariant: orders sound and distinct, levels positive, nothing waiting untold, reports consistent with orders |
| `BookSteps.CollectSound` | services/matching_engine.py:707-759 | after collecting, the report table says of every order exactly what it is and no fill is waiting |
| `BookSteps.CollectTwice` | services/matching_engine.py:707-759 | collecting twice with nothing in between publishes nothing and changes nothing |
| `BookSteps.PruneIsFinal` | services/matching_engine.py:830-868 | pruning drops only orders that cannot fill and do not wait for a bracket |
| `BookSteps.PrunedWasReported` | services/matching_engine.py:776-868 | an order dropped by a matching run had its final fill and status reported |
| `Liquidity.StepTook` | services/matching_engine.py:356-1326 | whatever any operation but a feed update removes from a side is, price by price, what it publishes as filled or sold, plus dropped dust |
| `Accounts.StepAligned` | services/matching_engine.py:707-759 | everything an operation publishes is about orders it knows, and each order changed by exactly the fills and sales published for it |
| `Runs.RunWell` | services/matching_engine.py:309-1326 | the invariant holds in every reachable book; in particular a PENDING order has no fills, a PARTIAL one some but not all, a FILLED one all, and a live MARKET order none |
| `Runs.RunBacked` | services/matching_engine.py:356-397 | liquidity is never spent twice: in every reachable state and at every price, the feed's size equals what is left plus everything taken since it was last set, and a level gone from the shadow is short by less than dust |
| `Histories.RunAccounted` | services/matching_engine.py:707-759 | in every reachable state each order's filled quantity and cost are what it was placed with plus all fills ever published for it, and its exits are all sales ever published |
| `Histories.RunEvolves` | services/matching_engine.py:119-202 | an order seen at two moments of a run has only moved forward in between |
| `Histories.RunFresh` | services/matching_engine.py:423-437 | in every reachable state every cached depth listing equals the one computed from the current book |
| `Histories.DepthIsCurrent` | services/matching_engine.py:423-437 | asking for the best n levels at any moment of any run gives the n best levels of the current book, best first |
| `Histories.PlacedQuantity` | services/matching_engine.py:119-202 | in any reachable book an order has the terms it was placed with, and wants at most the quantity it was placed for |
| `Stream.RunOrderly` | services/matching_engine.py:707-774 | over any run, per order, reported fills strictly grow and nothing follows its one cancellation; the report table covers all that was told |
| `Slippage.RunFair` | services/matching_engine.py:943-1000 | over any run, every fill ever published for a MARKET order lies within its slippage of the reference price it has recorded |
| `Feed.SnapshotSays` | services/matching_engine.py:356-379 | after a snapshot each side holds, at each price, the size of the last entry of that side's own list that is positive there, and nothing else, on the book and on the raw copy |
| `Feed.DeltaSays` | services/matching_engine.py:381-397 | after a delta the last change with a side and price decides its size; every other side and price is as before |
| `Feed.RunHears` | services/matching_engine.py:356-397 | in every run the raw size at a side and price is what the last feed operation that set it said |
| `Feed.RunOffers` | services/matching_engine.py:356-397 | in every reachable state the book offers, at each side and price, what the feed said last there less everything published as filled or sold since, down to dust |
| `Expiry.ExpiryIsOnTime` | services/matching_engine.py:870-929 | matching runs, sweeps and expiry by hand alike: a live order that is due is cancelled with its fills as they were and the unfilled rest given up, a filled one that is due is closed, and an order that is not due, or never expires, is neither; matching cancels no LIMIT order |
| `Expiry.DueIsTold` | services/matching_engine.py:707-929 | a live order that is due is told cancelled, with its fills, by the next matching run or sweep |
| `Expiry.CancelledForCause` | services/matching_engine.py:468-929 | whatever the operation, a live LIMIT order is cancelled exactly when it is cancelled by id or with all others, its market resolves, its book expires, or its own expiry has come; a MARKET order also when matching cannot fill it whole |
| `Expiry.ResolutionEndsPositions` | services/session_manager.py:152-171 | when the market has resolved every position is closed and no bracket is left to fire |
| `Expiry.RunCancelsForCause` | services/matching_engine.py:468-929 | in every reachable state a cancelled LIMIT order was cancelled for one of these causes since it was placed |
| `Expiry.RunTellsForCause` | services/matching_engine.py:707-929 | over any run the cancellation of a LIMIT order is told only after such a cause; when nobody cancels it and its market stays as it is, at or after its expiry |
| `Brackets.MonitorWatches` | services/matching_engine.py:1104-1169 | monitoring looks at every order once, at the best bid there was before any exit: a held position whose take-profit that bid reaches from below, or else whose stop-loss it reaches from above, has exactly one exit, recorded with that trigger, price and bid and with what it sold; any other order has none and is unchanged |
| `Brackets.PlacementWatches` | services/matching_engine.py:499-684 | on being placed, to be matched or filled elsewhere, an order keeps the bracket it came with and is looked at once in the same way; no other order is touched |
| `Brackets.CloseSells` | services/matching_engine.py:1259-1296 | closing at the market sells the named position, if it is held and there are bids, at the best bid, and no other |
| `BookTheorems.SecondRunIsIdle` | services/matching_engine.py:776-868 | a second matching run at the same clock publishes nothing and changes no fill and no level; at most it prunes |
| `BookTheorems.RunLeavesNoCrossing` | services/matching_engine.py:776-827 | after a matching run on a fresh, unexpired book no resting LIMIT order crosses without being held back |
| `BookTheorems.RunTimePriority` | services/matching_engine.py:776-827 | whenever a matching run publishes a fill of a later order at a price, no earlier order of the same side had a claim on it at that moment |
| `BookTheorems.UnheardMatchesNothing` | services/matching_engine.py:776-796 | on a book that has expired, or has not heard the feed for two minutes, a matching run fills nothing and takes nothing |
| `BookTheorems.DroppedExactly` | services/matching_engine.py:819-868 | a matching run drops orders every fiftieth time: exactly those filled and closed, and those cancelled with no position left to watch that ended more than five seconds ago |
| `BookTheorems.PlacementTellsItself` | services/matching_engine.py:567-616 | what an order fills on being placed is published by that very placement, and the order handed back has no fill levels left |
| `BookTheorems.ExpireKills` | services/matching_engine.py:468-495 | an expired book has no live order |
| `BookTheorems.DeadStaysDead` | services/matching_engine.py:468-495 | no operation short of a placement ever revives or fills an order of an expired book |
| `BookTheorems.DustBlocks` | services/matching_engine.py:1003-1036 | counterexample: a dust level at the best ask keeps a BUY from a full level behind it that its limit reaches |
| `BookTheorems.StuckExactly` | services/matching_engine.py:1003-1036 | an uncapped LIMIT BUY with more than dust to fill is left unchanged by its turn exactly when its limit is below the best ask or the best ask is dust |
| `ShadowBook.SimulatedOrder.AddFill` | services/matching_engine.py:1040-1053 | a fill updates the order in place as the specification's fill does |
| `ShadowBook.ShadowOrderbook.constructor` | services/matching_engine.py:335-354 | a new book is empty |
| `ShadowBook.ShadowOrderbook.ReadListing` | services/matching_engine.py:362-377 | later entries of a listing win, sizes that are not positive are skipped |
| `ShadowBook.ShadowOrderbook.ApplySnapshot` | services/matching_engine.py:356-379 | a snapshot replaces both sides and the feed's copy, and drops the cache |
| `ShadowBook.ShadowOrderbook.SetLevels` | services/matching_engine.py:386-396 | one change sets or removes a level on both copies |
| `ShadowBook.ShadowOrderbook.ApplyChanges` | services/matching_engine.py:381-397 | changes apply in order to both copies, and drop the cache |
| `ShadowBook.ShadowOrderbook.DepthListing` | services/matching_engine.py:423-437 | the listing answered and the cache kept are those of the specification |
| `ShadowBook.ShadowOrderbook.SweepAsks` | services/matching_engine.py:977-1053 | the in-place BUY walk does what the specified sweep does to order and asks |
| `ShadowBook.ShadowOrderbook.SweepBids` | services/matching_engine.py:1055-1088 | the in-place SELL walk does what the specified sweep does to order and bids |
| `ShadowBook.ShadowOrderbook.MatchOrder` | services/matching_engine.py:931-1102 | matching one order in place is the specified matching |
| `ShadowBook.ShadowOrderbook.TakeTurn` | services/matching_engine.py:790-817 | one order's turn in place, immediate-or-cancel included |
| `ShadowBook.ShadowOrderbook.ExpirePendingOrders` | services/matching_engine.py:887-929 | the expiry loop cancels exactly the due orders; it answers whether any was |
| `ShadowBook.ShadowOrderbook.CollectStateChanges` | services/matching_engine.py:707-759 | the reporting loop returns the specified events and leaves the specified table and orders |
| `ShadowBook.ShadowOrderbook.SeedLastReported` | services/matching_engine.py:697-705 | the table entry of any id is set to the values handed in |
| `ShadowBook.ShadowOrderbook.CancelOrder` | services/matching_engine.py:1298-1316 | cancels the order with this id if it is live, and no other |
| `ShadowBook.ShadowOrderbook.CancelAllVirtual` | services/matching_engine.py:1318-1327 | cancels every live order |
| `ShadowBook.ShadowOrderbook.ResolveMarket` | services/session_manager.py:153-171 | a resolved market cancels live orders, drops brackets and closes every open position |
| `ShadowBook.ShadowOrderbook.ExpireTheBook` | services/matching_engine.py:468-495 | expiry cancels, clears both copies and the cache, and publishes the specified events |
| `ShadowBook.ShadowOrderbook.SweepPending` | services/session_engine.py:295-306 | expiry swept by the session publishes only if something expired |
| `ShadowBook.ShadowOrderbook.SellDown` | services/matching_engine.py:1194-1216 | the exit's walk down the bids sells what the specified walk sells |
| `ShadowBook.ShadowOrderbook.ExecuteBracketExit` | services/matching_engine.py:1171-1257 | an exit in place leaves the specified order and bids and returns the specified record |
| `ShadowBook.ShadowOrderbook.TryBracket` | services/matching_engine.py:1137-1169 | the bracket of one order fires exactly when the specification says |
| `ShadowBook.ShadowOrderbook.MonitorBrackets` | services/matching_engine.py:1104-1169 | the monitoring loop runs all brackets against the best bid, in list order |
| `ShadowBook.ShadowOrderbook.ForceCloseAtMarket` | services/matching_engine.py:1259-1296 | a forced close of one order at the best bid |
| `ShadowBook.ShadowOrderbook.PlaceVirtualOrder` | services/matching_engine.py:499-618 | placement appends, matches, tries the bracket and publishes as specified |
| `ShadowBook.ShadowOrderbook.PlacePrefilledBracketOrder` | services/matching_engine.py:620-684 | a prefilled order is appended FILLED and only its bracket is tried |
| `ShadowBook.ShadowOrderbook.PruneTerminalOrders` | services/matching_engine.py:830-868 | pruning keeps exactly the orders that are not prunable, in order |
| `ShadowBook.ShadowOrderbook.MatchAll` | services/matching_engine.py:790-817 | the matching loop over the list is the specified pass |
| `ShadowBook.ShadowOrderbook.RematchOrders` | services/matching_engine.py:776-817 | expiry, then the pass unless the book has expired or is stale |
| `ShadowBook.ShadowOrderbook.TidyUp` | services/matching_engine.py:818-827 | pruning on every fiftieth run |
| `ShadowBook.ShadowOrderbook.RunMatching` | services/matching_engine.py:776-827 | the whole matching run in place is the specified run, events included |
| `Walks.WalkAsks` | routers/binary_options.py:261-303 | the loop of both fills computes the specified walk |
| `Walks.FillMarketFromSnapshot` | routers/binary_options.py:194-333 | the answer, error cases included, for MARKET orders, fill-or-kill and ceiling price |
| `Walks.FillLimitFromSnapshot` | routers/binary_options.py:336-431 | the answer, error cases included, for aggressive LIMIT orders |
| `Walks.WalkEnds` | routers/binary_options.py:261-303 | a walk keeps cost and quantity equal to the sums of its levels, and ends with the budget spent or every level under the cap consumed |
| `Walks.WalkIsOptimal` | routers/binary_options.py:261-303 | on ascending asks no allocation within sizes, cap and budget buys more shares |
| `Walks.LimitSplitsAmount` | routers/binary_options.py:388-431 | spent plus remaining is exactly the amount; something remains only if all levels under the limit were taken whole |
| `Walks.MarketFillWithin` | routers/binary_options.py:262-333 | a fill at the market is bought from the best ask on, only at prices within its slippage or limit and never above its ceiling; unless it spends the amount it takes every leading ask within these bounds whole; average price times shares is what it cost |
| `Walks.LimitFillWithin` | routers/binary_options.py:336-431 | the same for a LIMIT fill and its limit, with the rest of the amount handed back |
| `Walks.WalkSpends` | routers/binary_options.py:261-303 | a walk spends its budget, or all that the asks under the cap are worth when that is less |
| `Walks.FokExactly` | routers/binary_options.py:305-333 | fill-or-kill is filled exactly when the best ask is within the slippage and the ceiling and either no ceiling was given or the leading asks within both are worth the amount; so it is all or nothing exactly when a ceiling is given, or those asks are worth the amount, or there are none |
| `Walks.LimitRemainder` | routers/binary_options.py:388-431 | what a LIMIT fill leaves unspent though it bought something, from the asks alone |
| `Walks.FokWithoutCeiling` | routers/binary_options.py:305-333 | counterexample: without a ceiling a fill-or-kill order fills in part |
| `Walks.EngineRefinesWalk` | ws_feed_service/order_consumer.py:402-430 | on the same asks (levels at least dust) the engine's sweep with quantity amount/best-ask and cost cap amount buys what the snapshot walk buys, less than dust short, at no more cost |
| `Fees.TakerFeeFromLevels` | config/fees.py:22-30 | the loop computes the sum of nominal fees |
| `Fees.MakerRebateFromLevels` | config/fees.py:33-41 | the loop computes the sum of rebates |
| `Fees.EstimateIs32nd` | config/fees.py:44-51 | the estimate is one thirty-second of the amount |
| `Fees.FeeAtMost27th` | config/fees.py:17-30 | over any walk below price one the fee is at most one twenty-seventh of the cost |
| `Fees.TightAtOneThird` | config/fees.py:17-30 | the bound is reached at price one third |
| `Fees.EstimateCovers` | config/fees.py:44-51 | where every level lies in the covered range the estimate on the cost covers the fee |
| `Fees.EstimateCoversExactly` | config/fees.py:44-51 | for a single level the estimate covers the fee exactly in the covered range, which prices of one half and more belong to |
| `Fees.RebateIsOneFifth` | config/fees.py:33-41 | the rebate is exactly one fifth of the fee |
| `Database.Session.RecordUserBalance` | services/user_balance.py:21-79 | one row with the realised balance as stored, or none without an active bot |
| `Database.Session.CancelWithRefund` | services/settlement.py:348-367 | cancels one trade and refunds its whole amount to its bot |
| `Database.Session.ProfitOf` | services/settlement.py:153-233 | the profit formula: bracket exit with remainder, binary, refund, or an exception for want of an entry price |
| `Database.Session.SettleSingleTrade` | services/settlement.py:134-293 | settles one trade, pays its bot, pauses a broke bot and records the balance; on an exception nothing changed |
| `Database.Session.RecordOrderFill` | main.py:310-351 | a fill is recorded, and a passive order earns its rebate |
| `Database.Session.SettleLateFill` | main.py:387-427 | a late fill settles in a transaction of its own, or is rolled back |
| `Database.Session.HandleOrderFill` | main.py:289-442 | the fill handler as a whole, redelivery included |
| `Database.Session.HandleOrderCancel` | main.py:170-286 | the cancel handler: the filled part is kept, the rest refunded |
| `Database.Session.HandleBracketExit` | main.py:73-167 | the exit handler records the first exit and moves no money |
| `Database.Session.HandleMarketResolved` | main.py:445-513 | the resolution loop drops the brackets of exactly the named pending trades |
| `Database.Session.HandleOne` | services/settlement.py:321-367 | one trade of a scheduled job, and whether it was resolved |
| `Database.Session.RunJob` | services/settlement.py:321-367 | the loop over all trades is the specified job, and stops at the first exception |
| `Database.Session.SettlePendingTrades` | services/settlement.py:299-383 | settlement commits once; an exception rolls everything back |
| `Database.Session.SweepStuckOrders` | services/settlement.py:386-503 | the sweeper does both categories, and answers how many trades it resolved |
| `Database.Session.CreateBo` | routers/binary_options.py:509-1025 | order creation: debit, refusals that give the amount back, the three kinds of fill, and the message pushed to the engine's queue |
| `Database.Session.FillAggressive` | routers/binary_options.py:708-845 | an aggressive LIMIT order: fill, fee, status, trade, and the queued remainder or bracket |
| `Database.Session.QueuePassive` | routers/binary_options.py:847-930 | a passive LIMIT order is booked with its whole amount in escrow and queued for amount over limit |
| `Database.Session.FillMarket` | routers/binary_options.py:932-1022 | a MARKET order: fill, unspent budget returned, fee, trade, and the queued bracket |
| `Database.Session.ChargeMarket` | routers/binary_options.py:947-957 | returns what was not spent and takes the fee |
| `Database.Session.NewBot` | routers/bots.py:20-57 | a bot is granted only from what the user has left |
| `Database.Session.RemoveBot` | routers/bots.py:128-172 | deletion needs no pending trade, and gives the bot's profit or loss back to the pool |
| `Database.Session.AdjustBotBalance` | routers/bots.py:175-222 | initial and current balance move by the same amount, within the pool |
| `Database.Session.SnapshotAllUserBalances` | services/user_balance.py:82-145 | one snapshot for each active user, and their number |
| `LedgerProofs.StepDrift` | main.py:170-513 | the ledger law: balance plus pending amounts plus fees minus profits of won and lost trades, against the initial balance, moves under any operation by exactly its drift; the drift is zero but for a partly filled aggressive LIMIT order and a cancel that claims more than the trade holds |
| `LedgerProofs.CreateDrift` | routers/binary_options.py:557-957 | creating an order loses money exactly when it is an aggressive LIMIT order and the asks up to its limit are worth more than nothing and less than its amount, and then the difference |
| `LedgerProofs.CancelDrift` | main.py:193-266 | a cancel conserves exactly when it does not claim more was spent than the trade holds |
| `LedgerProofs.FillStanding` | main.py:289-442 | fills conserve, rebates and late settlement included, however often they are redelivered |
| `LedgerProofs.RunDrift` | services/settlement.py:134-503 | over every run of sane operations, an active bot is off the ledger identity by exactly the sum of its drifts |
| `LedgerProofs.RunConserves` | services/settlement.py:134-503 | so the identity holds for it exactly when the drifts add up to zero, in particular when there are none |
| `LedgerProofs.SettlePaysOut` | services/settlement.py:237-265 | a settled trade pays its escrow and profit to its own bot and changes no other trade, bot or user |
| `LedgerProofs.DoJobEffect` | services/settlement.py:321-485 | scheduled work changes only its own trade, and that only while it is pending, by paying it out once |
| `LedgerProofs.FinishedStays` | services/settlement.py:321-485 | no operation changes a trade that has left PENDING, so each leaves it at most once |
| `LedgerProofs.BargainStays` | main.py:73-442 | no operation changes whose trade it is, its forecast, limit and times, or the amount it was entered for |
| `LedgerProofs.RemovedExactly` | routers/bots.py:128-173 | a bot is removed exactly for its owner while it is active and none of its trades is pending, and its profit or loss goes to the pool |
| `LedgerProofs.RunKeepsPayees` | routers/bots.py:128-173 | in every reachable ledger each pending trade belongs to an active bot |
| `LedgerProofs.PayoutFormula` | services/settlement.py:177-255 | payout is the unspent budget plus exit proceeds plus one for each share still held if the forecast was right, for any split by an exit |
| `LedgerProofs.PayoutBounds` | services/settlement.py:177-255 | a payout is never negative and at most the unspent budget plus one per share |
| `Creation.AcceptedExactly` | routers/binary_options.py:509-820 | a request is accepted exactly when the bot may trade and holds the amount and, unless the order waits, the estimated fee, the market is open and quoted, ceiling, stop-loss and take-profit lie on the right side of the best ask, and the asks suffice; a refusal changes nothing |
| `Creation.CreatedExactly` | routers/binary_options.py:509-1040 | an order whose limit is below the market waits with its whole amount and is charged that; any other buys from the best ask on within its bounds, its trade holds what was bought at what it cost, with the fee, and its bot is charged the cost and the fee, or the whole amount and the fee of a LIMIT order; nobody else's money moves |
| `Payouts.HeldToTheEnd` | services/settlement.py:134-296 | a trade without an exit is paid its unspent part, and one for every share exactly when the candle closes where it was forecast, a flat candle counting as green |
| `Payouts.ExitRecorded` | main.py:73-166 | the first exit is recorded with the trigger, price and quantity of its message, and nothing else changes |
| `Payouts.ExitPays` | main.py:73-166 | from message to money: after an exit by take-profit or stop-loss any settlement pays the unspent part, the exit's price times its quantity, and by the candle for the shares not sold; a forced exit is left out of account |
| `Payouts.LaterExitsAreLost` | main.py:87-100 | a later exit of the same trade, whatever it says, changes nothing |
| `Payouts.ResolvedIsClosed` | main.py:445-545 | a resolution closes the named open trades and drops their brackets, touches no other and no money, and changes nothing in what settlement pays later |
| `Payouts.PaidInPartsExactly` | main.py:87-100 | a position sold in two parts is paid what both brought exactly when the second brought what the candle pays for its shares anyway |
| `Payouts.BookExitPays` | ws_feed_service/order_consumer.py:668-689 | the exit the book makes, published and recorded: settlement pays what the levels sold into were worth, and by the candle for the rest |
| `Positions.HandedOverExactly` | routers/binary_options.py:461-1022 | something is queued for the engine exactly when the trade waits, a LIMIT order could not spend its amount, or there is a bracket; it carries the bracket and the session of the request |
| `Positions.BoughtIsWatched` | ws_feed_service/order_consumer.py:267-332 | a position bought at the API becomes, when its message is placed, a filled order for the same shares at the same cost with the same bracket, looked at once at the best bid of the moment |
| `Positions.QueuedIsPlaced` | ws_feed_service/order_consumer.py:357-554 | an order that waits becomes, when its message is placed, a LIMIT BUY at the trade's limit for exactly what the trade holds, with the bracket of the request, matched and looked at once, and is tracked for the trade |
| `Positions.MoneyOfAPosition` | routers/binary_options.py:509-1040 | the whole life of a MARKET order's money: its bot ends with what it had, less what the asks it took cost and the fee, plus what the bids its bracket sold into were worth, plus one for every unsold share if the forecast was right |
| `LedgerProofs.CancelOnce` | main.py:170-286 | replaying a cancel message changes nothing |
| `LedgerProofs.ExitAndResolveOnce` | main.py:97-166 | replaying an exit or a resolution changes nothing |
| `LedgerProofs.FillFinishes` | main.py:380-427 | a fill message finishes a pending trade exactly when it is complete, late and a candle is at hand; otherwise it only records the fill |
| `LedgerProofs.FillAgainExactly` | main.py:289-427 | a fill replayed at any time with any candle changes nothing exactly when the trade is finished, or the message earns no rebate and does not settle the trade this time |
| `LedgerProofs.FillOnceExactly` | main.py:289-427 | replayed at the same time with the same candle it changes nothing exactly when the trade was settled by it or it earns no rebate; on a pending trade the replay pays the rebate again |
| `Scheduler.JobsHandleEach` | services/settlement.py:321-485 | a job handles each trade as if it were alone, and fails exactly when one of them fails |
| `Scheduler.SweepClearsExactly` | services/settlement.py:386-503 | the sweeper leaves no stuck and no orphaned trade exactly when no stuck trade with a candle has a recorded exit but no entry price; otherwise it does nothing at all |
| `Scheduler.SettlementFailsExactly` | services/settlement.py:299-373 | scheduled settlement fails, and with it for every trade, exactly when some due, open, unqueued trade has a candle and an exit but no entry price |
| `Scheduler.SettlementLeaves` | services/settlement.py:299-383 | after any settlement run a trade is still due exactly when it was due and either the run failed or the trade was resolved or lacked its candle; a failed run changes nothing |
| `Scheduler.SettledExactly` | services/settlement.py:299-373 | a settlement run that goes through refunds the waiting trades whose time has come, settles the other open ones that have a candle, and leaves every other trade as it was |
| `Scheduler.SweptExactly` | services/settlement.py:386-503 | a sweep that goes through settles the trades ten minutes overdue that have a candle, refunds those that have none and those two hours old without a settlement time, and leaves every other trade as it was |
| `Scheduler.FilledIsSettled` | main.py:289-334 | a fill ends its trade's wait: once the engine has told of one, settlement settles the trade by its candle and does not refund it as unfilled |
| `UserBalances.ReportsReconcile` | services/user_balance.py:44-100 | snapshot balance equals realised balance less pending amounts less entry fees plus the standing of the user's active bots, so the reports reconcile exactly when the bots together satisfy the identity |
| `UserBalances.RunReconciles` | services/user_balance.py:44-100 | over every run of sane operations the two reports differ from reconciling by exactly the drifts of the active bots |
| `UserBalances.ClaimsByTrade` | services/user_balance.py:49-65 | claims added up bot by bot are the columns added up trade by trade |
| `UserBalances.BotsKeepThePool` | routers/bots.py:20-211 | creating, deleting or adjusting a bot changes no user's snapshot balance |
| `UserBalances.GrantMovesThePool` | services/user_balance.py:82-145 | a snapshot is what the bots hold plus what is left to hand out; a new bot moves its grant from the one to the other |
| `UserBalances.CandleProfitsAddUp` | services/user_balance.py:82-145 | profits by candle add up over disjoint sets of trades, and over all trades to the realised profits |
| `UserBalances.SnapshotsByCandle` | services/user_balance.py:82-145 | a snapshot reports profits by candle exactly for users with an active bot, and these add up over disjoint sets of trades |
| `UserBalances.PoolNotOverdrawn` | routers/bots.py:33-52 | a granted bot or a granted increase leaves the user's pool non-negative |
| `UserBalances.RealizedMoves` | services/user_balance.py:49-65 | until it is flushed, a transaction has moved the realised balance by exactly the profits settled in it |
| `UserBalances.JobRowsLag` | services/settlement.py:321-367 | every row a scheduled job writes shows the realised balance as stored before the transaction; it agrees with the balance after its own trade exactly when the profits settled so far in the transaction for the user's active bots add up to zero |
| `UserBalances.HistoryLags` | services/user_balance.py:49-79 | in a transaction of one settlement the row is right exactly when the bot is inactive or the profit is zero |
| `UserBalances.SnapshotsTelescope` | services/user_balance.py:102-127 | session results of a user add up to the change of balance since the first snapshot, whatever the ledger did in between |
| `Funding.OverdraftBound` | routers/binary_options.py:551-557 | no order takes a bot further below zero than 5/864 of its amount, and none below zero where every ask is in the covered range |
| `Funding.OverdraftExactly` | routers/binary_options.py:551-557 | a bot that just passes the balance checks ends non-negative after a MARKET order against one level exactly when the level's price is in the covered range |
| `Funding.LimitCostBound` | services/matching_engine.py:1003-1036 | in every reachable book a LIMIT BUY has paid at most its limit for what it filled, and no more than limit times quantity |
| `Funding.LimitRefundIsExact` | main.py:195-244 | a cancelled LIMIT order keeps exactly its entry cost and gets the rest back, once |
| `Funding.QueuedOrderRefunds` | routers/binary_options.py:849-913 | the same for an order placed for amount/limit and taken anywhere by a legal run of the engine |
| `Consumer.OrderConsumer.OnStateChanges` | ws_feed_service/order_consumer.py:584-649 | the loop over events publishes for tracked orders and forgets finished ones, as specified |
| `Consumer.OrderConsumer.ProcessOrder` | ws_feed_service/order_consumer.py:172-265 | a queued message is placed as a standard or prefilled order with the specified terms, or answered with a cancellation when it is not accepted |
| `Consumer.OrderConsumer.ProcessStandard` | ws_feed_service/order_consumer.py:433-554 | placement on the real book, publication, tracking and seeding, as specified |
| `Consumer.OrderConsumer.ProcessPrefilled` | ws_feed_service/order_consumer.py:267-332 | a prefilled order is placed for its bracket only, tracked and seeded; nothing is published |
| `Consumer.OrderConsumer.PublishPlaced` | ws_feed_service/order_consumer.py:457-540 | what is published about an order just placed |
| `Consumer.QueuedExactly` | routers/binary_options.py:708-1022 | a trade waits in the engine exactly when an unfilled order was queued for it, and that is always a LIMIT order for exactly the trade's amount; what a partly filled LIMIT order could not spend travels with a prefilled message |
| `Consumer.FutureOrdersOutlive` | ws_feed_service/order_consumer.py:374-400 | an order for a future session lives at least until that session settles, whatever time to live was asked; an order for the current one without a time to live expires with its candle |
| `Consumer.HandlesEachAlone` | ws_feed_service/order_consumer.py:584-649 | what is published about a trade depends only on the events of its own order |
| `Consumer.CollectedAbout` | services/matching_engine.py:707-759 | a collection publishes about one order exactly what there is to tell about it |
| `Consumer.CancelLostExactly` | ws_feed_service/order_consumer.py:591-649 | a tracked order's fill is always published; its cancellation is published exactly when no fill of it is told in the same batch |
| `Consumer.TrackedExactly` | ws_feed_service/order_consumer.py:584-649 | an order stays tracked exactly until the book first tells that it is filled or cancelled |
| `Consumer.PlacementPublished` | ws_feed_service/order_consumer.py:457-540 | for a placement the consumer publishes, in place of the events it drops, the same messages without fill levels |
| `Consumer.LimitKeepsItsCancel` | ws_feed_service/order_consumer.py:591-649 | no matching run tells a fill and the cancellation of a LIMIT order together, so none is lost |
| `Consumer.MarketLosesItsCancel` | ws_feed_service/order_consumer.py:591-649 | a waiting MARKET order loses its cancellation exactly when the pass fills it only in part |
| `Consumer.LostCancelRefunds` | services/settlement.py:329-354 | a trade whose cancellation was lost is cancelled with a full refund at settlement, although shares were bought; latent, as only a hand-written queue message leaves a MARKET order waiting |
| `Consumer.LostCancelChain` | ws_feed_service/order_consumer.py:591-649 | the same from the matching run through the consumer to the settlement, for any tracked waiting MARKET order and queued trade |
| `Consumer.RejectionCancelsPosition` | ws_feed_service/order_consumer.py:172-347 | for any created order: when its queued message is turned down or its book has expired, one empty cancellation is published, and on its arrival the trade is cancelled and its whole amount given back, with shares that were bought exactly when the message was a prefilled one |
| `Delivery.PlacementIsProcessed` | ws_feed_service/order_consumer.py:433-554 | a placement in a run is what the consumer does with a standard order, and seeding changes nothing |
| `Delivery.RunFollowed` | ws_feed_service/order_consumer.py:584-649 | over any legal run the consumer's messages about the trade of a LIMIT order convey, one for one and in order, what the book told about the order, and the last of it tells the order as it is |
| `Arrivals.DeliverBecomes` | main.py:170-442 | whatever messages arrive, in whatever order, how often and at what time, with what candle: until an arrival finishes it a pending trade holds what the last message about it said and the cost of its last cancellation; the first late complete fill with a candle, or empty cancellation, finishes it for good |
| `Arrivals.RunWellTold` | ws_feed_service/order_consumer.py:584-649 | over any legal run, of the messages about a LIMIT trade: exactly the last fill and a cancellation after it tell all the shares, at the order's average price, and older ones tell less; at most one cancellation comes, it comes last, and only about a CANCELED order; a fill that says FILLED tells the order as it is |
| `Arrivals.EndToEnd` | main.py:595-695 | engine to ledger, with fills and cancellations on two streams, each in order and any number of times, merged in any way and handled at any times with any candles: the trade holds exactly the order's shares at its average price; it is settled exactly when a complete fill came late, and else keeps its amount until cancelled and the entry cost after; cancelled without fills it is cancelled |
| `Arrivals.NewestExactly` | ws_feed_service/order_consumer.py:584-649 | a published message tells all the shares of its order exactly when no fill was published after it |
| `Arrivals.StaleExactly` | main.py:289-334 | published messages in any order: the shares are never more than the order's, and are the order's exactly when some arrival settled the trade or no fill was published after the message that arrived last |
| `Arrivals.QueuedIsFunded` | ws_feed_service/order_consumer.py:400-432 | an unfilled order that creation queued for a trade is placed for exactly what the trade holds |
| `Arrivals.ArrivalConserves` | main.py:170-286 | for an order funded so, each arrival about its trade, replays included, leaves every bot's standing (balance, claims and fees against deposits) as it was |
| `Arrivals.RefundArrives` | main.py:195-244 | once the cancelled order's messages have arrived, its bot has got back exactly the amount less the entry cost, but for rebates booked on the trade |
| `Calendar.ByCandle` | routers/binary_options.py:94-144 | routing, settlement and expiry in terms of the number of the candle |
| `Calendar.CalendarsAgree` | services/settlement.py:62-82 | routing by offset, settlement and expiry give the same aligned close, strictly after the trade and at most the asked candles ahead |
| `Calendar.CalendarsAgreeExactly` | routers/binary_options.py:94-144 | routing and settlement agree exactly for offsets up to three |
| `Calendar.TimestampInverts` | routers/binary_options.py:105-128 | a timestamp is accepted exactly within the current and next three candles, with the right error otherwise, and is routed as its offset would be |
| `Calendar.OpenInverts` | routers/binary_options.py:105-133 | the open of a candle routed by offset is routed to the same answer |
| `Calendar.ExpectedOpens` | ws_feed_service/session_lifecycle.py:36-61 | the opens kept ready are the current and next three, or four within the buffer of the boundary |
| `Calendar.CoversExactly` | ws_feed_service/session_lifecycle.py:48-61 | sessions kept ready at t cover routing later exactly while the candle is the same, or is the next and t was within the buffer of its start |
| `Calendar.RoutingIsCovered` | ws_feed_service/session_lifecycle.py:48-61 | every candle routable now is among the expected opens of any second at most twenty seconds old |
| `Sessions.IndexIsScan` | services/session_manager.py:88-92 | looking a token up in the index answers exactly the registered sessions that own it, without repeats exactly when no session uses it for both directions; a token is listed exactly when someone owns it |
| `Sessions.AdditionKeepsIndexed` | services/session_manager.py:73-75 | registering a session keeps the index right |
| `Sessions.RemovalKeepsIndexed` | services/session_manager.py:107-114 | archiving a session keeps the index right, and leaves no empty list |
| `Sessions.ArchivedLeavesNoTrace` | services/session_manager.py:107-114 | an archived session is listed under no token |
| `SessionProofs.StepOrderly` | services/session_engine.py:96-131 | every lifecycle step and every book operation keeps: active sessions have begun, settling sessions are dead, books are sound, nothing archived is registered |
| `SessionProofs.StepForward` | ws_feed_service/session_lifecycle.py:349-369 | no step moves a session back, and one leaves the registry only when it is over or has settled for the grace period |
| `SessionProofs.BoundaryLeavesOne` | services/session_manager.py:266-281 | after a boundary at the current open a market has no active session but the current one, which is active unless it was settling or absent |
| `SessionProofs.RotateLeavesOne` | ws_feed_service/main.py:94-123 | a rotation leaves the current session, and it alone, active, unless it is settling already |
| `SessionProofs.RunOrderly` | services/session_manager.py:245-281 | the invariant in every registry reachable with a clock that never goes back |
| `SessionProofs.OnBookKeeps` | services/session_engine.py:239-276 | with the placement guards, operations keep books sound and dead books dead |
| `SessionProofs.SettlingStep` | services/session_engine.py:109-120 | while a session settles no step fills, revives or adds an order |
| `SessionProofs.SettledForGood` | services/session_engine.py:109-120 | once a session settles, then as long as it stays registered: it keeps settling, no order is live, and none ever fills again |
| `SessionRegistry.SessionEngine.constructor` | services/session_engine.py:49-78 | a new session is in PREFETCH with one empty book per direction |
| `SessionRegistry.SessionEngine.TransitionTo` | services/session_engine.py:96-131 | a transition in place, with the events its books publish |
| `SessionRegistry.SessionEngine.ExpireBooks` | services/session_engine.py:112-119 | the expiry of every book of the session |
| `SessionRegistry.SessionEngine.DispatchWsEvent` | services/session_engine.py:135-218 | a feed event applied to the right book, with inferred sizes |
| `SessionRegistry.SessionEngine.Operate` | services/session_engine.py:223-276 | an operation on a book of the session, refused exactly by the guards |
| `SessionRegistry.SessionManager.CreateSession` | services/session_manager.py:49-82 | registers and indexes a session, or answers the one that is there |
| `SessionRegistry.SessionManager.GetSessionsForToken` | services/session_manager.py:88-92 | answers exactly the registered sessions that own the token |
| `SessionRegistry.SessionManager.TransitionSession` | services/session_manager.py:94-114 | moves a session; archiving takes it off the registry and the index |
| `SessionRegistry.SessionManager.OnCandleBoundary` | services/session_manager.py:266-281 | the boundary loop, in whatever order sessions are visited |
| `SessionRegistry.SessionManager.ArchiveSettlingSessions` | services/session_manager.py:245-264 | archives exactly the sessions that have settled for longer than the grace period |
| `SessionRegistry.SessionManager.CleanOne` | ws_feed_service/session_lifecycle.py:364-369 | an expired session goes through the rest of its lifecycle |
| `SessionRegistry.SessionManager.CleanupExpiredSessions` | ws_feed_service/session_lifecycle.py:332-412 | removes exactly the expired sessions, counts them, and publishes what they publish |
| `SessionRegistry.SessionManager.EnsureMarketSessions` | ws_feed_service/session_lifecycle.py:99-148 | creates exactly the missing expected sessions of a market whose tokens are known |
| `SessionRegistry.SessionManager.EnsureFutureSessions` | ws_feed_service/session_lifecycle.py:64-160 | the same for all markets, and how many were created |
| `SessionRegistry.SessionManager.RotateMarket` | ws_feed_service/main.py:94-123 | creates or promotes the current session of a market, then handles its boundary |
| `SessionRegistry.SessionManager.PrefetchSessions` | ws_feed_service/main.py:125-137 | adds the missing future sessions and leaves the others |
| `SessionRegistry.SessionManager.DispatchEvent` | services/session_manager.py:123-171 | hands an event, or the resolution of the market, to every listed session |
| `Witnesses.PartFillLoses` | routers/binary_options.py:557-820 | a run in which an aggressive LIMIT order of ten against asks worth one loses nine |
| `Witnesses.RebateRepeats` | main.py:335-351 | a run in which a fill delivered twice pays its rebate twice |
| `Witnesses.ResolvedIsPassedOver` | services/settlement.py:321-328 | a run after which a resolved trade is due and settlement leaves it |
| `Witnesses.OvertakingExitBlocks` | services/settlement.py:177-180 | a run in which an exit overtakes its fill; then neither scheduled settlement nor the sweeper does anything |
| `Witnesses.BotBelowZero` | routers/binary_options.py:551-557 | a run in which an order of thirty-two at a third takes a bot of thirty-three below zero |
| `Witnesses.FirstRowLagsSecondDoesNot` | services/settlement.py:321-367 | two trades settled in one run, winning and losing ten: both rows show the stored thousand, the first wrongly, the second rightly |
| `Witnesses.StaleFillLowersShares` | main.py:310-312 | a run in which an older fill replayed after a newer one lowers the trade's shares |
| `Witnesses.SecondExitUnpaid` | main.py:87-100 | a run in which twenty shares are sold ten by ten at nine tenths and the trade is paid nine |
| `Witnesses.RejectedBracketRefunds` | ws_feed_service/order_consumer.py:333-347 | a run in which twenty shares are bought and the empty cancellation then gives the ten paid for them back |
| `SessionTheorems.RoutableIsReady` | ws_feed_service/session_lifecycle.py:64-148 | after ensuring the markets, every session an order can be routed to in the next twenty seconds is registered as far as its tokens were known, and survives cleanup till then |
| `SessionTheorems.StepsExactly` | services/session_manager.py:94-281 | a lifecycle step drops exactly the sessions whose candle ended more than ten seconds ago or that settled for longer than the grace period; a rotation activates the session of the current candle and settles active ones whose candle is over; every other session stays as it is |
| `SessionTheorems.AddsExactly` | services/session_manager.py:49-82 | a session a step adds has the tokens it was given, empty books, and is active exactly when its candle is on and it was not prefetched |
| `SessionTheorems.PrefetchAddsExactly` | ws_feed_service/main.py:125-137 | prefetching leaves the sessions that are there and adds the others, empty and not yet active |
| `SessionTheorems.ArchivedIsEmpty` | services/session_engine.py:96-131 | an archived session keeps no book and no token and never changes again |
| `SessionTheorems.PlacesExactly` | services/session_engine.py:223-276 | a new order gets into a book exactly while its session is not settling and the book has not expired, a prefilled one also while it settles |
| `SessionTheorems.DispatchIsOperations` | services/session_engine.py:135-218 | a feed event is a sequence of book operations, none of them a placement |
| `Dispatches.BringsSizes` | services/session_engine.py:135-218 | the sizes an event gives, on the book and on the raw copy: those of its lists or changes, or for a best price without a size that of the best level it improves on |
| `Dispatches.DispatchLeaves` | services/session_engine.py:135-218 | an event about a token changes the book of that token only; the raw copy holds the sizes it gave, no LIMIT order of an unexpired book was left that the new sizes could fill but for the causes that hold one back, and every bracket was looked at once at the best bid that matching left |
| `Dispatches.ResolutionLeaves` | services/session_manager.py:152-171 | the resolution of a market closes every position of the book and drops every bracket |
| `SessionTheorems.FeedReachesOwners` | services/session_manager.py:123-151 | with distinct tokens every session owning the token gets the event once, and no other session changes |
| `SessionTheorems.ExpiryTells` | services/matching_engine.py:468-495 | an expiring book publishes the cancellation of every order it had live |
| `SessionTheorems.CleanupTellsExactly` | ws_feed_service/session_lifecycle.py:364-369 | a live order of a cleaned-up session has its cancellation published exactly when the session was active |

## Left out

- Rounding to eight digits and binary floating point: all arithmetic is exact.
- Network, storage, encoding, logging, traces, the in-memory bracket log and last-trade record,
  achievements, statistics, authentication.
- Thread races between a check and the lock it should have held: each operation is one step.
- Shutdown, and looking up a book or best price across sessions.
- Restart recovery and the older registry of books around `MatchingEngine`; the book beneath is the same.
- Walk prices, open and close prices and other columns of a trade that no modelled decision reads; the
  balance history of bots.
- Bots without an owner, unknown timeframes, pausing and resuming bots by hand, renaming.
- `cancel_reason` texts, and whether a message is acknowledged; a failed push to the queue.
- The messages of bracket exits: exits are returned by the book and handled by the ledger, and move no
  money.
- Aliasing between sessions and their books: `SessionRegistry.SessionEngine` holds its books as values
  of the specification, which the class `ShadowBook.ShadowOrderbook` is proved to follow.
- The order in which a dictionary is visited: the loops over registries hold for every order.
- Consumer.OrderConsumer.ProcessOrder: the best ask and the session's own checks (found, owns the token,
  state) are parameters.
- SessionRegistry.SessionManager.CleanupExpiredSessions: draining the order queue of an expired session
  and deleting its keys are not part of this model.
- SessionRegistry.SessionManager.EnsureFutureSessions: what it writes to the token registry is not part of
  this model.
- Funding.QueuedOrderRefunds: speaks of cancelled orders with fills; `Arrivals.EndToEnd` covers the rest.
- Consumer.MarketLosesItsCancel: is about matching runs; a placement publishes through its own path.
- SessionProofs.SettledForGood: a session that was archived and registered anew is another session.
