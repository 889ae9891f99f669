# Paper-trading terminal: verified model

A Dafny model of a paper-trading terminal and of the feed that supplies it. It covers the path of a
command through the engine (signal, order, two gates, fill, cash, position, journal), the account
arithmetic behind the published profit, the in-process market store, the newline-framed socket link
with its cache-and-resync publisher, the stock poller's schedule and the feed handler's batching.

Each component appears twice. A module of datatypes and functions says what one operation does to a
state, and lemmas prove what every operation and every run keeps. Beside it a class with the source's
fields and in-place methods is proved to compute exactly those functions. The engine's class is
finally shown to perform runs of one machine (module `Terminal`), so a law proved of that machine's
reachable states holds of every cycle of the loop. `Session.RunSession` does this for a whole session
of the objects together: engine loop, feed server and stock poller.

| files | subject |
|---|---|
| `types`, `sums`, `sequences` | shared values, sums over maps, sequence facts |
| `accounting`, `journal`, `portfolio` | average-cost accounting, journal readings, `Position` and `Portfolio` |
| `risk`, `matching`, `desk`, `desk_laws`, `oms` | gates, matching, the order desk and its laws, `OrderManager` |
| `admission` | what every submit does, read off account, limits and quote |
| `terminal`, `terminal_laws`, `control_plane`, `engine` | the engine as a machine, its laws, `TradingEngine` |
| `command_laws`, `view_laws` | what each command does, and what each published field says |
| `session` | the loop over all objects of the terminal |
| `store`, `market_store` | bounded tapes, last quotes, request queues, `MarketStore` |
| `tape_laws` | how messages reach the tapes |
| `framing`, `messages`, `feed_server` | line framing, decoded messages, `FeedServer` |
| `feed_link`, `feed_sync`, `publisher` | resync, the two-ended link, `FeedPublisher` |
| `delivery` | from the publisher's caches over the bytes to the engine's quotes |
| `polling`, `stock_feed` | `StockFeed` schedule and sampling |
| `wire_laws` | emitted ticks on the wire |
| `batching`, `feed_handler` | the buffers of `BaseFeedHandler`, and the handler over its publisher |

`dafny verify dfyconfig.toml` checks the whole project. Long runs are lists of operations, folded from
the left; a lemma about `Run`, `Trace`, `RunOf` or `Replay` holds for every such list.

## Conventions

- `double` is `real`; both `1e-12` tolerances are one constant. Timestamps, ids and counters are
  unbounded; the largest 64-bit timestamp appears where the store uses it as the front of an empty tape.
- A fill has positive quantity, as every fill of the matching engine does. With quantity zero on a flat
  position the source would divide zero by zero.
- The clock, the outcome of connects and writes, vendor answers and the JSON codec are parameters.
- A diagnostic printed to standard error is an entry in the desk's `faults`, so that "never printed"
  can be stated.

## Where the code and its documentation differ

The model follows the code. Each of these has a lemma giving the exact condition, and a reachable
input on which the promise fails.

- `ClosedPosition.realized_pnl` is documented as the profit of the round trip
  (`cpp/include/execution/portfolio.hpp:32`) but holds the closing fill's only:
  `Journal.ClosedPnlCoversRoundTripIff`, with an example in `Journal.PartialExitIsMissingFromTheRecord`.
  A position that only grew before the closing fill is covered: `Journal.SingleExitIsCovered`.
- Buying power is reserved at the limit price, yet a limit buy on a book without an ask is "marketable"
  and fills at the bid (`cpp/src/matching.cpp:11-22`), possibly above its limit: `DeskLaws.SolvencyIff`, with the first
  order of a fresh desk as the input (`DeskLaws.InsolventWitness`).
- `max_order_notional` is documented as the largest order in quote currency
  (`cpp/include/execution/risk.hpp:19`), but the check may use the mid where the fill uses the other
  side: `DeskLaws.NotionalLimitIff`, with the desks in `DeskLaws.NotionalWitness`. Twice the limit is a
  true bound for market orders, and the limit itself when the crossed side is quoted.
- `connect()` reports success even when the resync it ran lost the socket, and the write that follows
  then raises an error nobody expects (`feedhandler/publisher.py:90-91`): `FeedLink.RaisedIff`, with an
  input in `FeedSync.HangingUpRaises`. When it raises during a flush, waiting quotes stay in their
  buffer, which may then outgrow its bound (`FeedHandlers.BoundedThroughoutIff`,
  `FeedHandlers.HangingUpStrandsQuotes`) or miss the final drain (`FeedHandlers.FinalDrainIff`).
  The totals printed as "published" (`feedhandler/base.py:101-104`) then miss the batch for good:
  `FeedHandlers.TotalsMatchIff`, on the same input.
- History is promised oldest first and never interleaved (`cpp/include/execution/market_store.hpp:46-78`).
  A backfill onto an empty tape may hold points newer than the first live trade, and then the tape is
  out of order though trades and backfill were each in order: `Store.TapeSortedIff`, with an input in
  `Store.NewerSeedLeavesTheTapeUnsorted`. A stock's series is promised in the same order
  (`cpp/include/execution/stock_feed.hpp:65-69`) and is not when the first quote is older than the last
  bar: `Polling.SeriesSortedIff`, with an input in `Polling.StaleQuoteLeavesTheSeriesUnsorted`.
- A repeated backfill is harmless for time-sorted points; the exact condition is
  `Store.BackfillTwiceIff`, with an input in `Store.UnsortedBackfillIsNotIdempotent`.

## Model

| member | source | states |
|---|---|---|
| Types.TouchIsPositive | cpp/include/execution/types.hpp:86-91 | a touch is tradable exactly when some side is quoted |
| Types.CrossingCostsAtLeastTheMid | cpp/include/execution/types.hpp:75-91 | on a two-sided book the sell touch is at most the mid and the buy touch at least the mid |
| Accounting.HoldingAfterIsTheAverageCostStep | cpp/include/execution/types.hpp:141-162 | the position after a fill is the only one that meets the average-cost discipline: quantity moves by the fill, realized less open cost moves by its cash, nothing is realized while opening, the average survives a reduction, becomes the price on a flip and zero when flat |
| Accounting.AverageStaysBetween | cpp/include/execution/types.hpp:145-158 | a new average lies within any bounds on the old one and the fill price |
| PortfolioBook.Position.Apply | cpp/include/execution/types.hpp:141-162 | the in-place update computes the position after the fill |
| Accounting.ClosingRecordPnl | cpp/include/execution/portfolio.hpp:65-69 | a closing fill closes the whole quantity and records (exit - entry) times the position |
| PortfolioBook.Portfolio.Apply | cpp/include/execution/portfolio.hpp:52-69 | the fill's symbol, cash and closed records change as the accounting says and every other position object is untouched |
| PortfolioBook.Portfolio.Fund | cpp/include/execution/portfolio.hpp:38 | funding sets capital and cash and nothing else |
| PortfolioBook.Portfolio.NetQty | cpp/include/execution/portfolio.hpp:45-48 | an unknown symbol has net quantity zero, a known one its position's |
| PortfolioBook.Portfolio.MarkToMarket | cpp/include/execution/portfolio.hpp:70-77 | the loop is the order-independent sum over marked positions |
| PortfolioBook.Portfolio.RealizedPnl | cpp/include/execution/portfolio.hpp:78-82 | the loop is the sum of lifetime realized profit |
| PortfolioBook.Portfolio.UnrealizedPnl | cpp/include/execution/portfolio.hpp:83-90 | the loop is the sum of open profit over marked positions |
| PortfolioBook.Portfolio.TotalPnlAt | cpp/include/execution/portfolio.hpp:91-92 | equity less initial capital |
| Accounting.PnlDecomposition | cpp/include/execution/portfolio.hpp:70-92 | total profit is realized plus unrealized less the cost of positions without a mark, for any marks |
| Accounting.PnlIdentity | cpp/include/execution/portfolio.hpp:70-92 | total equals realized plus unrealized exactly when unmarked positions cost nothing in total, in particular when all are marked |
| Accounting.FillKeepsBalance | cpp/include/execution/portfolio.hpp:52-69 | cash is capital plus realized less open cost, before and after any fill |
| Accounting.FillMovesEquity | cpp/include/execution/portfolio.hpp:52-92 | a fill moves equity by signed quantity times (mark - price) |
| Accounting.MarkMovesEquity | cpp/include/execution/portfolio.hpp:70-92 | moving one mark moves equity by net quantity times the move |
| Journal.ReplayMatchesJournal | cpp/include/execution/types.hpp:141-162 | for every list of fills a symbol's quantity is the signed sum, and lifetime profit is its cash plus open cost, across open, extend, reduce, flip and flat |
| Journal.FlatRealizedIsCash | cpp/include/execution/types.hpp:132-162 | whenever a symbol is flat its lifetime realized profit is the net cash of all its fills |
| Journal.AverageWithinRun | cpp/include/execution/types.hpp:145-158 | while open, the average lies between two prices of the fills that opened or extended the current run, flips included |
| Journal.ClosedRecordsAreRoundTrips | cpp/include/execution/portfolio.hpp:63-68 | closed records correspond one to one, in order, to the journal's nonzero-to-zero crossings with their size, exit and time |
| Journal.ReplayCash | cpp/include/execution/portfolio.hpp:61 | cash is the funded capital plus the cash flow of every fill |
| Journal.ReplayBalanced | cpp/include/execution/portfolio.hpp:52-69 | every replayed account balances |
| Journal.ClosedPnlCoversRoundTripIff | cpp/include/execution/portfolio.hpp:26-69 | a closed record leaves out exactly what its run had realized before the closing fill, so it covers the whole round trip exactly when that is nothing |
| Journal.SingleExitIsCovered | cpp/include/execution/portfolio.hpp:26-69 | read off the fills alone, a position that was only opened and extended before one closing fill has its whole round trip recorded |
| Journal.PartialExitIsMissingFromTheRecord | cpp/include/execution/portfolio.hpp:63-68 | a concrete round trip with a partial exit whose record leaves that exit out |
| Risk.RiskManager.Check | cpp/src/risk.cpp:12-43 | denied by the kill switch, else allowed exactly within all limits, else with the first breached limit's reason |
| Admission.VerdictIff | cpp/src/risk.cpp:12-43 | with prices and limits spelled out: an order is allowed exactly within all three limits and no kill, and else denied with the words of the first limit it breaches |
| Risk.RiskManager.Kill | cpp/src/risk.cpp:7-10 | sets the switch and the reason and keeps the limits |
| Matching.PaperMatchingEngine.Match | cpp/src/matching.cpp:5-32 | one full fill at the touch, numbered, when there is quantity, a quote and a marketable price; otherwise nothing |
| Desk.ExecutedFill | cpp/src/matching.cpp:7-31 | a fill belongs to the order just created and is its whole quantity at a positive touch |
| Oms.OrderManager.Transition | cpp/src/oms.cpp:24-32 | a legal move changes only the status; an illegal one changes nothing and is reported |
| Oms.OrderManager.OnFill | cpp/src/oms.cpp:101-117 | for any fill, the full new state, with both diagnostics |
| Admission.FillCallback | cpp/src/oms.cpp:101-118 | a fill for a live order adds to its totals, keeps average times quantity equal to the notional filled, and leaves it filled or partially filled; one for an order at rest or unknown is reported |
| Oms.OrderManager.BusinessGate | cpp/src/oms.cpp:53-63 | why buying power or long-only refuses the order, or nothing |
| Oms.OrderManager.Submit | cpp/src/oms.cpp:39-86 | gates, transitions, routing and the fill loop together yield one settled order, never report a fault and return its id, or None for a degenerate signal |
| Admission.SubmitIff | cpp/src/oms.cpp:39-86 | all a submit does, read off cash, net quantity, limits, kill switch and quote: which gate refuses and with what words, when the order rests, and else its one fill, its stored order and the account's move |
| Admission.MarketSellIff | cpp/src/oms.cpp:60-63 | a market sell fills exactly when not killed, some side is quoted, it is covered up to the tolerance, and the three limits hold at the bid or mid |
| Admission.MarketBuyIff | cpp/src/oms.cpp:57-59 | a market buy fills exactly when not killed, some side is quoted, its cost is within the cash, and the three limits hold at the ask or mid |
| Admission.PartialSellKeepsTheAverage | cpp/src/oms.cpp:60-86 | selling part of a long position leaves the rest at the same average and realizes the part's profit |
| Admission.DegenerateSignal | cpp/src/oms.cpp:40 | a submit leaves no trace exactly for a signal without a positive quantity or a symbol |
| Admission.RunsBoundQuantity | cpp/src/risk.cpp:20-22 | no run journals a fill larger than the order quantity limit |
| Oms.OrderManager.Flatten | cpp/src/oms.cpp:88-99 | a market sell of the whole long position, or nothing; the id of the order it made, if it made one |
| Desk.RunsAreJournalled | cpp/src/oms.cpp:39-117 | in every run ids are exactly 1..next-1, orders are rejected, filled or sent with nothing filled, no fault is ever reported, replaying the journal gives the account, and each order's totals are its journalled quantity and notional |
| Desk.SettledOrdersNeverChange | cpp/src/oms.cpp:64-85 | an order never changes after the submit that made it, whatever follows |
| Desk.SubmitKeepsOrderBook | cpp/src/oms.cpp:39-86 | one submit keeps the order book well formed and every older order as it was |
| DeskLaws.RunsStayWithinPositionLimits | cpp/src/oms.cpp:60-63 | in every run, whatever the limits, no symbol is short by more than one tolerance, and each is flat or within the position limit |
| DeskLaws.SolvencyIff | cpp/src/oms.cpp:53-59 | a submit keeps cash non-negative on every solvent desk a run reaches exactly when the order cannot overspend |
| DeskLaws.InsolventWitness | cpp/src/matching.cpp:16-22 | each order that can overspend drives a freshly opened desk below zero as its first order |
| DeskLaws.RunsStaySolvent | cpp/src/oms.cpp:39-99 | cash stays non-negative over every run of orders that cannot overspend, flattens and kills |
| DeskLaws.MarketFillNotional | cpp/src/risk.cpp:24-34 | a market fill costs at most twice the limit, and at most the limit when the crossed side is quoted |
| DeskLaws.NotionalLimitIff | cpp/src/risk.cpp:24-34 | an order of any type is held to the limit at its fill price on every desk a run reaches exactly when it was checked at no better a price |
| DeskLaws.NotionalWitness | cpp/src/risk.cpp:24-34 | for each other order, a desk a run reaches (for a sell, after one buy) on which it fills above the limit |
| DeskLaws.MarketOrderCheckedIff | cpp/src/risk.cpp:26-29 | for market orders that means the crossed side is quoted or no side is |
| DeskLaws.RunsBoundNotional | cpp/src/risk.cpp:24-34 | over every run of market orders each journalled fill does what one action asked and is within twice the limit, and within the limit when that action crosses a quoted side |
| DeskLaws.KilledRunsAreFrozen | cpp/src/risk.cpp:14-16 | once killed, no run trades and every order it makes is rejected |
| DeskLaws.FlattenIff | cpp/src/oms.cpp:88-99 | a flatten of a long position ends exactly flat precisely when it is admitted, and otherwise changes no money |
| DeskLaws.FlattenCloses | cpp/src/oms.cpp:88-99 | an admitted flatten adds net times touch to cash and exactly one record with its profit, and a second one is a no-op |
| TerminalLaws.CommandsProcessedOnceInOrder | cpp/src/engine.cpp:37-86 | under any interleaving, processed then swapped-out then queued commands are exactly those posted, in order |
| TerminalLaws.EngineRunsTheDesk | cpp/src/engine.cpp:134-196 | every reachable terminal state's desk is a desk run of orders that cannot overspend |
| TerminalLaws.ReachableDesk | cpp/src/engine.cpp:77-196 | order book, journal, round trips, cash and position bounds hold in every reachable terminal state |
| TerminalLaws.CommandTradesWhatItAsks | cpp/src/engine.cpp:179-185 | a filled buy or sell command trades exactly the asked notional, or the asked quantity, on its symbol and side |
| TerminalLaws.TerminalBoundsNotional | cpp/src/engine.cpp:179-185 | with non-negative quotes each fill of any command sequence does what one action asked, within the notional limit when that crosses a quoted side and within twice it always |
| TerminalLaws.NothingTradesAfterKill | cpp/src/engine.cpp:161-165 | once a Kill has been processed, whatever comes later leaves account and journal as they were and rejects every new order |
| TerminalLaws.PositionsAreQuoted | cpp/src/engine.cpp:167-184 | every symbol with a position has a cached quote, always |
| TerminalLaws.PublishedPnlAddsUp | cpp/src/engine.cpp:198-211 | in every reachable state the published total is the published realized plus unrealized |
| TerminalLaws.PnlAttribution | cpp/src/engine.cpp:77-211 | the profit of any run is net quantity times mid moves over quote updates, less the crossing cost of its fills |
| TerminalLaws.FrozenMarketNeverGains | cpp/src/engine.cpp:134-196 | on frozen two-sided books no command sequence raises profit |
| ControlPlane.SymbolsRequestedOnce | cpp/src/engine.cpp:145-151 | batches taken then pending are the crypto symbols newly added by command, in order, without repetition, and none that was booted |
| ControlPlane.HistoryRequestedOnce | cpp/src/engine.cpp:102-103 | history requests taken then pending are the crypto symbols first charted, once each |
| Engine.TradingEngine.constructor | cpp/src/engine.cpp:10-18 | starts with the given symbols, the first one charted, and a funded empty desk |
| CommandLaws.BootedState | cpp/src/engine.cpp:10-18 | a booted engine is funded, unkilled and empty, knows its symbols and charts the first |
| Engine.TradingEngine.PostCommand | cpp/src/engine.cpp:37-40 | appends to the queue |
| Engine.TradingEngine.Process | cpp/src/engine.cpp:134-196 | one command changes the engine as the machine's processing step; the poller watches exactly the stock symbols, and nothing but its watch list and the request queue changes in poller and store |
| CommandLaws.OrderCommandTrades | cpp/src/engine.cpp:167-196 | a buy or sell on a quoted symbol places one market order for what is asked: one fill at the price exactly when nothing stands against it, else the words of the gate it failed; asking for nothing does nothing |
| CommandLaws.FlattenCommandFlattens | cpp/src/engine.cpp:171-177 | a flatten on a quoted symbol held long ends flat exactly when one order can sell it all, takes net times price and leaves one record, and otherwise moves no money |
| CommandLaws.NothingToFlatten | cpp/src/oms.cpp:88-90 | a flatten with no more than the tolerance held does nothing |
| CommandLaws.UnquotedCommandDoesNothing | cpp/src/engine.cpp:167-168 | a trading command on a symbol without a quote does nothing |
| CommandLaws.FocusCommandCharts | cpp/src/engine.cpp:154-160 | focusing on a symbol charts it and changes nothing else |
| CommandLaws.AddCommandWatches | cpp/src/engine.cpp:135-153 | adding a symbol watches it in its class; a new one is charted, and a new crypto one asked of the feed |
| CommandLaws.KillCommandStopsOrders | cpp/src/engine.cpp:161-165 | after a kill command the next command trades nothing |
| CommandLaws.KilledOrderSaysSo | cpp/src/engine.cpp:161-165 | and an order the account could afford is left with the words of the switch |
| Engine.TradingEngine.DrainCommands | cpp/src/engine.cpp:78-86 | the queue is swapped out once and its commands processed in order, as a run of the machine |
| Engine.TradingEngine.RefreshQuotes | cpp/src/engine.cpp:88-92 | the quotes become the old ones overridden by the store's last quotes of the watched symbols, then by the poller's, as a run of quote updates |
| Engine.TradingEngine.MergeCatalog | cpp/src/engine.cpp:117-127 | merges the universe, takes the product list, notes a seen universe and sets the next deadline exactly when it is due or not both have landed |
| CommandLaws.MergeAddsTheUniverse | cpp/src/engine.cpp:119-125 | a merge adds exactly the universe behind the watch list, and charts the first symbol if none was charted |
| Engine.CatalogReadsAreSpaced | cpp/src/engine.cpp:117-127 | once both parts have landed, a read is followed by none for two seconds and then by one |
| Engine.CatalogIsReadUntilItLands | cpp/src/engine.cpp:111-127 | until then every cycle reads it and takes over what the store has |
| Engine.TradingEngine.Publish | cpp/src/engine.cpp:198-211 | the published account is that of the engine's state at mid marks |
| ViewLaws.PublishedFieldByField | cpp/src/engine.cpp:198-211 | in every reachable state: cash is capital plus the journal's cash, killed exactly when a Kill was processed, total is the state's profit, a quote moves only the open profit by net times the mid's move, and a flat account shows no open profit and all cash as realized |
| ViewLaws.KilledIff | cpp/src/engine.cpp:161-165 | the switch is on exactly when a Kill command has been processed |
| Engine.TradingEngine.Cycle | cpp/src/engine.cpp:77-131 | one cycle processes the queued commands, refreshes the quotes, requests history for the chart and merges the catalog if due, is a run of the machine with one swap, and publishes the state it ends in |
| TerminalLaws.PostsDuringACycle | cpp/src/engine.cpp:37-86 | commands posted anywhere inside a cycle change nothing of it and wait, in order, for the next one |
| Session.RunRound | cpp/src/engine.cpp:76-131 | whatever was posted, received and polled since the last cycle, the next one processes all of it: state, store, replies and poller are those of the parts in turn |
| Session.RunSession | cpp/src/engine.cpp:42-131 | from boot through any rounds the objects are a reachable machine state with every posted command processed; the account last published adds up, and what polls carried away plus what waits are the symbols commands added, once each |
| Store.BoundedTapeRefinesReference | cpp/src/market_store.cpp:14-39 | after any interleaving of trades and backfills each tape is the last cap points of one that never trims and filters against its own front |
| Store.HistoryReadsTheReference | cpp/src/market_store.cpp:87-94 | history returns exactly the last min(n, cap) points of the untrimmed tape |
| Store.BackfillKeepsTape | cpp/src/market_store.cpp:22-39 | a backfill keeps the old tape whole at the end, adds only accepted points older than it, and drops some only when full |
| Store.AcceptedPointByPoint | cpp/src/market_store.cpp:27-33 | a backfill is filtered point by point in order: positive price, positive time, older than the front of the tape, or than the newest time for an empty one |
| Store.BackfillKeepsSorted | cpp/src/market_store.cpp:22-39 | a time-sorted backfill of a tape in order leaves it in order |
| Store.TapeSortedIff | cpp/src/market_store.cpp:14-39 | with time-sorted backfills, whatever is interleaved, a tape is in order exactly when the live trades it holds are, and what was backfilled before the first of them ends no later than it or has been displaced |
| Store.ReferenceSortedIff | cpp/src/market_store.cpp:14-39 | the same of the tape that is never trimmed |
| Store.NewerSeedLeavesTheTapeUnsorted | cpp/src/market_store.cpp:27-33 | a sorted backfill onto an empty tape and one older trade leave the tape out of order |
| Store.BackfillTwiceIff | cpp/src/market_store.cpp:22-39 | the same backfill twice equals once exactly when no accepted point is older than the first accepted one or the tape is full |
| Store.UnsortedBackfillIsNotIdempotent | cpp/src/market_store.cpp:22-39 | a run of one and of two equal backfills that leave different tapes |
| Store.SortedBackfillRepeatsHarmlessly | cpp/src/market_store.cpp:30-38 | which holds of every time-sorted backfill |
| Store.TrimFront | cpp/src/market_store.cpp:19-38 | the trimming loop keeps the newest cap points |
| Store.SnapshotAnswersTheRequest | cpp/src/market_store.cpp:76-85 | a snapshot holds exactly the last quotes of the requested symbols that have one |
| Store.SnapshotOverlays | cpp/src/engine.cpp:91 | writing a snapshot over a table of quotes replaces exactly the requested symbols that have one |
| MarketStores.MarketStore.OnQuoteUpdate | cpp/src/market_store.cpp:8-12 | replaces the symbol's last quote, ignoring an empty symbol |
| MarketStores.MarketStore.OnTradePrint | cpp/src/market_store.cpp:14-20 | appends a positive price and trims |
| MarketStores.MarketStore.BackfillHistory | cpp/src/market_store.cpp:22-39 | the filter and trim loops compute the backfilled tape |
| MarketStores.MarketStore.TakeRequested | cpp/src/market_store.cpp:62-67 | hands out the pending symbols and empties the queue |
| MarketStores.MarketStore.TakeHistoryRequests | cpp/src/market_store.cpp:69-74 | the same for history requests |
| MarketStores.MarketStore.TakeSnapshot | cpp/src/market_store.cpp:76-85 | the loop computes the snapshot, in request order |
| MarketStores.MarketStore.ReadHistory | cpp/src/market_store.cpp:87-94 | the newest n points, none for n not positive |
| MarketStores.MarketStore.AddSymbol | cpp/src/market_store.cpp:106-111 | queues a non-empty symbol unless already queued |
| MarketStores.MarketStore.RequestHistory | cpp/src/market_store.cpp:113-119 | the same for history requests |
| Framing.CutIsUnique | cpp/src/feed_server.cpp:124-131 | complete lines and tail are the one newline-free way to cut a stream |
| Framing.KeepingTheTailIsEnough | cpp/src/feed_server.cpp:111-131 | keeping only the unfinished tail between reads loses nothing |
| Framing.AnyChunkingDeliversTheMessages | cpp/src/feed_server.cpp:110-133 | framed messages cut into any chunks decode to themselves with an empty tail |
| Framing.CutLines | cpp/src/feed_server.cpp:124-131 | the find loop yields exactly the complete lines and the tail |
| Framing.ReadReply | feedhandler/publisher.py:183-197 | the reply loop splits one newline-free line off what it read, keeps the rest, reads no further than needed, and succeeds exactly when a newline comes before the peer closes or the chunks end |
| Messages.HandledMirror | cpp/src/feed_server.cpp:146-217 | what a message does to quotes, catalog, universe and names depends on those alone |
| FeedServers.FeedServer.HandleMessage | cpp/src/feed_server.cpp:146-217 | each message updates the store as its kind says; a poll alone is answered, with both queues, drained |
| TapeLaws.MessageFollows | cpp/src/feed_server.cpp:163-188 | a message moves every tape by the trade rows or the backfill it carries, and by nothing else |
| TapeLaws.MessagesBuildTapes | cpp/src/feed_server.cpp:163-188 | from an empty store each tape is the newest part of what the trades and backfills of the messages build, in order |
| FeedServers.PollsEmptyTheQueues | cpp/src/feed_server.cpp:210-217 | a poll, and only a poll, is answered: with all that waits, leaving nothing |
| FeedServers.FeedServer.HandleLine | cpp/src/feed_server.cpp:135-217 | an empty or malformed line changes nothing, in the store or in what was sent back |
| FeedServers.FeedServer.Serve | cpp/src/feed_server.cpp:100-133 | a connection handles and answers the complete lines of its stream up to the close, whatever the chunks, and keeps the newline-free tail |
| FeedServers.PollsConserveRequests | cpp/src/feed_server.cpp:210-217 | whatever lines arrive, what replies carried away followed by what still waits stay the same requests in the same order |
| FeedServers.LinkDeliversMessages | cpp/src/feed_server.cpp:100-217 | messages written as lines and received in any chunks act and are answered as if passed one by one |
| FeedLink.ResyncInFull | feedhandler/publisher.py:119-129 | a resync keeps its socket exactly when every write succeeds, and has then written every non-empty cache |
| FeedLink.ResyncCovers | feedhandler/publisher.py:119-129 | a full resync brings any store into agreement with the cache |
| FeedLink.LiveMessageAgrees | feedhandler/publisher.py:162-224 | a live message keeps an agreeing store in agreement with the updated cache |
| FeedLink.OperationsKeepSynced | feedhandler/publisher.py:74-224 | after every operation, however its connect and writes end, the socket is gone or everything cached was written on it |
| FeedLink.RaisedIff | feedhandler/publisher.py:74-134 | the unexpected error occurs exactly when this very call attached and the resync lost the socket |
| FeedLink.DeliveredIff | feedhandler/publisher.py:74-134 | a message is delivered exactly when the link takes it: attached and the write succeeds, or a due connect is accepted and takes the resync and one more; it is then last on the wire, and else the socket is gone |
| FeedLink.OperationsReachTheWire | feedhandler/publisher.py:137-224 | each kind of operation, once delivered, has put exactly its own rows or ids on the wire, after the resync on a new connection |
| FeedLink.NoStaleReply | feedhandler/publisher.py:82-107 | bytes of a reply never outlive their connection |
| FeedSync.HangingUpRaises | feedhandler/publisher.py:74-134 | a run after which a send raises: something cached, then a peer that accepts and hangs up |
| FeedSync.RunOf | feedhandler/publisher.py:74-224 | over any run of operations, drops, restarts, accepts and deliveries, a shared connection's store is its base with a prefix of what was sent |
| FeedSync.AttemptsAreSpaced | feedhandler/publisher.py:74-84 | however often the feed publishes while detached, connection attempts are a retry interval apart |
| FeedSync.ResyncIsCorrect | feedhandler/publisher.py:119-169 | whenever both ends share a drained connection what the messages show agrees with every non-empty cache |
| Delivery.ServedStoreAgrees | feedhandler/publisher.py:119-169 | over the bytes: a server that has read, in any chunks, what the publisher wrote on the connection it holds keeps a store that agrees with every non-empty cache, whatever it kept before |
| Delivery.ServedTapesFollow | cpp/src/feed_server.cpp:100-188 | over the bytes: read in any chunks, every tape goes on from what built it by the trades and backfills sent |
| Delivery.ReceiveTapes | cpp/src/feed_server.cpp:100-188 | the server object does so |
| Delivery.CycleQuotesExactly | cpp/src/engine.cpp:88-92 | symbol by symbol, a cycle leaves the stock poller's quote, else the store's for a watched symbol, else the old one |
| Delivery.CycleShowsTheCache | cpp/src/engine.cpp:88-127 | the next cycle holds every cached quote of a watched symbol the stock poller has none for, and watches the whole universe once it merges |
| Delivery.TwoCyclesShowTheUniverse | cpp/src/engine.cpp:77-127 | after a merging cycle the next one holds the cached quote of every symbol of the universe, whatever is commanded in between |
| Delivery.ReceiveAndCycle | cpp/src/engine.cpp:77-131 | server and engine objects do so: read the connection, run a cycle, and store and engine agree with the publisher |
| Publisher.FeedPublisher.Write | feedhandler/publisher.py:109-117 | sends, or drops the socket, or raises when there is none |
| Publisher.FeedPublisher.Resync | feedhandler/publisher.py:119-129 | pushes each non-empty cache until the socket is lost |
| Publisher.FeedPublisher.Connect | feedhandler/publisher.py:74-97 | no-op when attached, rate-limited, resyncs a new connection |
| Publisher.FeedPublisher.Send | feedhandler/publisher.py:131-134 | connects if it can, then writes |
| Publisher.FeedPublisher.PublishTradeRows | feedhandler/publisher.py:137-143 | sends a non-empty batch and caches nothing |
| Publisher.FeedPublisher.PublishHistoryPoints | feedhandler/publisher.py:145-160 | sends non-empty history and caches nothing |
| Publisher.FeedPublisher.PublishQuoteRows | feedhandler/publisher.py:162-169 | remembers the newest row per symbol, then sends |
| Publisher.FeedPublisher.SetProductIds | feedhandler/publisher.py:208-212 | caches the catalog, then sends it |
| Publisher.FeedPublisher.SetUniverseIds | feedhandler/publisher.py:220-224 | caches the universe, then sends it |
| Publisher.FeedPublisher.SetDisplayNames | feedhandler/publisher.py:214-218 | caches the names, then sends them |
| Publisher.FeedPublisher.CloseSocket | feedhandler/publisher.py:226-232 | drops the socket and nothing else |
| Publisher.FeedPublisher.QueryRequests | feedhandler/publisher.py:172-197 | polls and takes one line off the buffered reply exactly when the poll was delivered and a newline arrives; otherwise a delivered poll drops the socket |
| Polling.ChartPriceIgnoresAbsentSides | cpp/src/stock_feed.cpp:23-27 | a price is charted exactly when a side is quoted, and an absent side never pulls it down |
| Polling.PollsKeepTheirDistance | cpp/src/stock_feed.cpp:89-167 | a poll after k successes and m failures starts no earlier than t0 + k s + 5m s |
| Polling.PassSchedulesExactly | cpp/src/stock_feed.cpp:84-167 | a due pass sets the next deadline one second on, five after a failed poll, or to its finish if that is later |
| Polling.PollsByTime | cpp/src/stock_feed.cpp:89-167 | at most one poll plus one per elapsed second has started by any time |
| Polling.NoCatchUpBurst | cpp/src/stock_feed.cpp:84-91 | whatever came before, j - i polls later at least j - i - 1 intervals have passed |
| Polling.SeriesIsBarsThenSamples | cpp/src/stock_feed.cpp:123-164 | a stock's series is the newest part of the bars of the first poll that watches it followed by the sample of every poll, in order, so the backfill displaces nothing live |
| Polling.SeriesSortedIff | cpp/src/stock_feed.cpp:123-164 | with sorted bars the series is in time order exactly when the samples it holds are, and the last bar is no newer than the first sample or displaced |
| Polling.StaleQuoteLeavesTheSeriesUnsorted | cpp/src/stock_feed.cpp:123-164 | a poll whose quote is older than the last bar leaves the series out of order |
| Polling.BackfilledOnce | cpp/src/stock_feed.cpp:109-139 | each watched symbol is backfilled at most once in a session |
| Polling.CachesHoldTheAnswers | cpp/src/stock_feed.cpp:109-165 | the poller's caches hold exactly the newest answered quote and the first looked-up name of each symbol |
| Polling.WatchedIff | cpp/src/stock_feed.cpp:43-47 | what is watched is exactly what was asked to be watched |
| StockFeeds.StockFeed.WatchSymbol | cpp/src/stock_feed.cpp:43-47 | watching is idempotent |
| StockFeeds.StockFeed.ScheduleNext | cpp/src/stock_feed.cpp:84-91 | the deadline advances by the interval unless already overrun |
| StockFeeds.StockFeed.RunOnce | cpp/src/stock_feed.cpp:93-168 | one pass of the loop: skip, idle, prepare, fail and back off, or record and reschedule |
| StockFeeds.StockFeed.RecordAnswer | cpp/src/stock_feed.cpp:150-165 | stores every answered quote and samples each priced one once |
| Batching.NothingLostOrRepeated | feedhandler/base.py:41-87 | batches handed over then the live buffer are the emitted ticks, for trades and quotes, whatever raises |
| Batching.BoundKeptIff | feedhandler/base.py:41-87 | an event keeps both buffers below the bound exactly when raising trades do not strand a full quote buffer |
| FeedHandlers.TotalsMatchIff | feedhandler/base.py:78-87 | over any run the totals never exceed what was handed over, and match it exactly when no flush swapped out a batch whose connect lost its resync |
| FeedHandlers.FeedRunsTheBuffers | feedhandler/base.py:41-87 | over any run of ticks, timers, control calls and link failures the handler's buffers are the batching machine's, with each raise read off the link |
| FeedHandlers.FeedConservesTicks | feedhandler/base.py:41-87 | batches handed to the publisher, then the live buffers, are the emitted ticks, whatever the link does |
| FeedHandlers.BoundedThroughoutIff | feedhandler/base.py:41-87 | both buffers stay below the bound all through a run exactly when no quote fills its buffer behind trades whose connect loses its resync |
| FeedHandlers.OverrunIsStrandings | feedhandler/base.py:41-87 | in every run trades stay below the bound, and quotes exceed it by no more than the number of such events |
| FeedHandlers.HangingUpStrandsQuotes | feedhandler/base.py:46-87 | a run from a detached start that leaves a buffer of two holding two quotes, and a handed-over trade uncounted |
| FeedHandlers.FinalDrainIff | feedhandler/base.py:157-159 | the final drain hands over every trade, and every quote exactly when none waits, no trade does, or the trades' connect does not lose its resync |
| WireLaws.EmittedTicksAreOnTheWire | feedhandler/base.py:41-87 | while the connection a run started on holds, every tick emitted is on the wire, in order, or still buffered, and nothing else is there |
| WireLaws.TimerFlushes | feedhandler/base.py:89-97 | the timer empties the trades, and the quotes exactly when they drain |
| WireLaws.BelowTheBoundNothingShips | feedhandler/base.py:41-49 | a tick that does not fill its buffer publishes nothing |
| FeedHandlers.FeedHandler.Flush | feedhandler/base.py:78-87 | swaps out and publishes trades, then quotes, stopping at a raise |
| FeedHandlers.FeedHandler.Emit | feedhandler/base.py:41-44 | appends a trade and flushes a full buffer |
| FeedHandlers.FeedHandler.EmitTopOfBook | feedhandler/base.py:46-49 | appends a quote and flushes a full buffer |

## Left out

- Floating-point rounding, NaN and overflow: quantities and prices are reals, counters and fill times unbounded integers.
- Threads, mutexes, sockets and sleeps as such: each critical section is one atomic step, and the steps interleave freely.
- JSON text: the codec is a parameter assumed to write one newline-free, non-empty line per message and to read it back.
- FeedSync.RunOf: takes each publisher operation as one step; deliveries between two writes of one operation only see a prefix of what it writes.
- FeedHandlers.FeedHandler.Flush: the link's willingness to connect and take writes is fixed during one flush and changes between events.
- Session.RunRound: work of the other threads is placed between cycles; posts inside a cycle are covered by `TerminalLaws.PostsDuringACycle`, messages and polls inside one by the machine's interleavings only.
- Polling.PollsByTime: stopping the poller in the middle of a pass is not modelled.
- Engine.TradingEngine.Publish: covers the account part of the view; per-symbol rows, chart series, log text and ring buffers would only add easy members.
- PortfolioBook.Position.Apply: the symbol copied into a position is a constant of the object, set when the portfolio creates it.
- Parsing of the poll reply, the subscription loop of the feed handler, exchange adapters, vendor clients, error texts, process spawning, configuration and the user interface.
