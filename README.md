# Stock-analysis backend: the trading and accounting core in Dafny

This project models the computational core of a stock-analysis web backend
and proves properties of it. The backend is a Python service. The model
covers nine parts of it:

- **Paper trading** (`PaperTrading`, paper_trading.dfy). A simulated cash
  account, modelled as a class. It holds:
  - one position per symbol, each with a weighted-average cost;
  - an append-only order history;
  - a log of realized trades.

  Buy and sell check the funds or holdings and update the position in
  place. The read-only queries are portfolio value, positions, performance
  metrics and position sizing. The ledger invariant is:
  - one position per symbol;
  - every stored quantity is positive;
  - cash plus the cost basis, minus the realized P&L, equals the initial
    cash.

  Both orders preserve it.
- **Backtesting** (`Backtesting`, backtesting.dfy). One bar-by-bar replay
  loop, shared by the RSI, SMA-crossover and custom-signal strategies. Each
  strategy only supplies the per-bar entry/exit signal. Also the pure trade
  metrics of a backtest result.
- **Mock document store** (`MockStore`, mock_collection.dfy). The in-memory
  stand-in for a MongoDB collection, which is an insertion-ordered
  dictionary of documents. Its operations are `find_one` (which writes
  `_id` into the stored document), `insert_one`, `find` and `delete_one`.
- **Portfolio controller** (`PortfolioHoldings`, portfolio.dfy). It folds
  the transaction log into net holdings, drops the holdings that are not
  positive, values the rest against quotes, and validates new transactions.
- **WebSocket bookkeeping** (`WebSocketBook`, websocket.dfy). The set of
  open connections and the symbol-to-subscribers table, modelled as a
  class. Every operation keeps the table free of empty subscriber sets.
- **Chart patterns** (`Patterns`, patterns.dfy):
  - doji and hammer flags;
  - windowed support/resistance levels and their strength;
  - the peaks and troughs behind trend lines.
- **Charting** (`Charting`, charting.dfy):
  - Heikin-Ashi candles;
  - comparison series;
  - Fibonacci and pivot levels;
  - local-extremum support/resistance;
  - Donchian channels.
- **Screener** (`Screener`, screener.dfy). The per-symbol filter ladder of
  `screen_by_criteria`, with Python's truthiness and NaN comparisons stated
  exactly.
- **Currency** (`Currency`, currency.dfy). The rate table, conversion and
  symbols.

`Common` (common.dfy) holds shared helpers: `Option`, sums, minima and
maxima, truncation and upper-casing.

Market data enters as parameters:
- price bars;
- indicator series (RSI, moving averages);
- stock information and quotes.

Money and prices are `real`, share counts are `int`. Where the program
differs from textbook accounting, the model follows the program.

## Model

| member | source | states |
|---|---|---|
| PaperTrading.IndexOf | backend/app/services/paper_trading_service.py:59 | the position lookup finds the first entry with the symbol, or proves the symbol is not held |
| PaperTrading.NewAccount | backend/app/services/paper_trading_service.py:43-48 | a fresh account (all cash, no positions, no orders, no trades) satisfies the ledger invariant |
| PaperTrading.PaperTradingService.constructor | backend/app/services/paper_trading_service.py:43-48 | the service starts as the fresh account of its initial cash, with the ledger invariant established |
| PaperTrading.PaperTradingService.Buy | backend/app/services/paper_trading_service.py:50-85 | buy changes the fields exactly as the buy step of the account value does, and keeps the ledger invariant |
| PaperTrading.PaperTradingService.Sell | backend/app/services/paper_trading_service.py:87-130 | sell changes the fields exactly as the sell step of the account value does, and keeps the ledger invariant |
| PaperTrading.TakeShares | backend/app/services/paper_trading_service.py:114-118 | the in-place update of sell: the quantity is reduced, and the entry is deleted when it reaches zero |
| PaperTrading.BuyStep | backend/app/services/paper_trading_service.py:50-85 | buy as a function of the account: the new account and the order, or the account unchanged and no order; BuyRejection, BuyEffect and BuyPreservesInvariant state its behaviour |
| PaperTrading.SellStep | backend/app/services/paper_trading_service.py:87-130 | sell as a function of the account: the new account and the order, or the account unchanged and no order; SellRejection, SellEffect and SellPreservesInvariant state its behaviour |
| PaperTrading.FirstBuyAverage | backend/app/services/paper_trading_service.py:59-73 | the first buy of a symbol records the order price as the average, so the position's cost and worth are quantity times price |
| PaperTrading.IncreasedCost | backend/app/services/paper_trading_service.py:68-73 | a buy's update of an entry adds exactly the order's cost, quantity*price, to what the entry cost |
| PaperTrading.IncreasedWorth | backend/app/services/paper_trading_service.py:68-73 | with the entry already marked at the order price, the update adds the order's cost to its worth |
| PaperTrading.AverageBetween | backend/app/services/paper_trading_service.py:68-73 | buying more moves the weighted average price between the old average and the order price |
| PaperTrading.ReducedCost | backend/app/services/paper_trading_service.py:114-115 | a partial sale lowers the position's cost by the sold quantity times the unchanged average price |
| PaperTrading.AddToPositionKeepsShape | backend/app/services/paper_trading_service.py:59-73 | buying keeps one position per symbol and positive quantities, and raises the cost basis by exactly the order cost |
| PaperTrading.AddToPositionEntry | backend/app/services/paper_trading_service.py:59-73 | after a buy the symbol is held with quantity old+q, the weighted average price, and the order price as its mark |
| PaperTrading.AddToPositionFrame | backend/app/services/paper_trading_service.py:59-73 | a buy leaves every other symbol's position unchanged |
| PaperTrading.AddToPositionAtMark | backend/app/services/paper_trading_service.py:59-73 | buying at the position's current mark raises the market value by exactly the order cost |
| PaperTrading.WithoutKeepsShape | backend/app/services/paper_trading_service.py:117-118 | deleting a position keeps the symbols distinct and the quantities positive |
| PaperTrading.ReducedKeepsShape | backend/app/services/paper_trading_service.py:114-115 | reducing a position by less than it holds keeps the symbols distinct and the quantities positive |
| PaperTrading.TakeFromPositionKeepsShape | backend/app/services/paper_trading_service.py:114-118 | selling part or all of a position keeps one position per symbol, keeps every quantity positive, and lowers the cost basis by quantity times average price |
| PaperTrading.TakeFromPositionEntry | backend/app/services/paper_trading_service.py:114-118 | selling everything removes the symbol; selling part keeps it with the same average price and the sale price as its mark |
| PaperTrading.BuyRejection | backend/app/services/paper_trading_service.py:52-55 | a buy is rejected exactly when quantity*price exceeds the cash, and a rejected buy changes nothing |
| PaperTrading.BuyEffect | backend/app/services/paper_trading_service.py:52-85 | a successful buy takes exactly the cost from the cash, leaves the trade log alone, and appends one order with value quantity*price |
| PaperTrading.BuyPreservesInvariant | backend/app/services/paper_trading_service.py:50-85 | buying keeps the ledger invariant and never drives a non-negative cash balance negative |
| PaperTrading.BuyAtMarkKeepsTotalValue | backend/app/services/paper_trading_service.py:57-73 | buying at the current mark moves money from cash into stock without changing the total value |
| PaperTrading.TwoBuysAverage | backend/app/services/paper_trading_service.py:59-73 | two buys of a new symbol give the summed quantity and the quantity-weighted average of the two prices |
| PaperTrading.FirstBuyOpens | backend/app/services/paper_trading_service.py:59-73 | the first buy of a symbol appends one entry holding the bought quantity at cost quantity*price |
| PaperTrading.SellRejection | backend/app/services/paper_trading_service.py:89-90 | a sell is rejected exactly when the symbol is not held or the holding is smaller than the request, and a rejected sell changes nothing |
| PaperTrading.SellEffect | backend/app/services/paper_trading_service.py:92-129 | a successful sell adds q*price to the cash and appends one trade (buy price the average, pnl = proceeds minus cost basis, the percentage guarded by cost basis > 0) and one order |
| PaperTrading.SellPreservesInvariant | backend/app/services/paper_trading_service.py:87-130 | selling keeps the ledger invariant: symbols distinct, quantities positive, cost conserved |
| PaperTrading.SaleConservesCost | backend/app/services/paper_trading_service.py:92-118 | proceeds to cash, cost basis out of the position and pnl into the log balance exactly, so cash + cost basis - realized pnl stays the initial cash |
| PaperTrading.SellKeepsCashNonNegative | backend/app/services/paper_trading_service.py:93 | cash stays non-negative through a sell with non-negative proceeds |
| PaperTrading.SellAllThenSellRejected | backend/app/services/paper_trading_service.py:89-90 | after the whole holding is sold, a further sell of the symbol is rejected |
| PaperTrading.TradeLogAppendOnly | backend/app/services/paper_trading_service.py:103-111 | the trade log only grows: a buy leaves it alone and a sell appends at most one trade |
| PaperTrading.DefaultOrderIds | backend/app/services/paper_trading_service.py:75-84 | without an id (or with an empty id) the order is named BUY_/SELL_<symbol>_<n>, where n is the history length before the append |
| PaperTrading.BuyThenSellAll | backend/app/services/paper_trading_service.py:50-130 | opening a new symbol and selling all of it restores the positions and changes the cash by exactly the realized pnl |
| PaperTrading.GetPortfolioValue | backend/app/services/paper_trading_service.py:132-147 | the total value is the cash plus the market value of the positions, and the return and its percentage are measured against the initial cash |
| PaperTrading.GetPositions | backend/app/services/paper_trading_service.py:149-161 | one view per open position, in insertion order, with its symbol, quantity, average price and current price, valued at quantity times the current price, and an unrealized pnl equal to its value minus what the position cost; the views' values add up to the market value and their unrealized pnls to market value minus cost basis |
| PaperTrading.StatsConsistent | backend/app/services/paper_trading_service.py:183-193 | winners plus losers never exceed the trade count, the win rate is a percentage, average win and loss are non-negative, and the profit factor is avg_win/avg_loss, or 0 without losses |
| PaperTrading.Stats | backend/app/services/paper_trading_service.py:181-193 | the trade counts, win rate, total pnl, averages and profit factor of a pnl list; StatsConsistent states how they relate |
| PaperTrading.PaperTradingService.GetPerformanceMetrics | backend/app/services/paper_trading_service.py:167-213 | an empty log gives all-zero statistics; otherwise the statistics of the pnls, and the reported drawdown is always 0 |
| PaperTrading.PortfolioCurve | backend/app/services/paper_trading_service.py:196-198 | the curve is the initial cash followed by the running total after each trade's pnl |
| PaperTrading.SmallestDrawdown | backend/app/services/paper_trading_service.py:200-201 | the loop computes the source's reduction: the smallest per-point drawdown from the global peak |
| PaperTrading.Equity | backend/app/services/paper_trading_service.py:196-198 | the curve starts at the initial cash and each point adds one trade's pnl |
| PaperTrading.DrawdownFromBounds | backend/app/services/paper_trading_service.py:201 | a point at or below the peak has a non-negative drawdown, the peak itself has 0, and with a positive peak and a non-negative point it is at most 100 |
| PaperTrading.AsWrittenDrawdownIsZero | backend/app/services/paper_trading_service.py:200-201 | the reported "max drawdown" is a min over a list that contains its own peak, so it is always 0 |
| PaperTrading.MinDrawdown | backend/app/services/paper_trading_service.py:200-201 | the source's reduction, the minimum of the per-point drawdowns from a peak; AsWrittenDrawdownIsZero and MinDrawdownFacts state its value |
| PaperTrading.MinDrawdownFacts | backend/app/services/paper_trading_service.py:201 | below a peak the min drawdown is non-negative, and 0 once the peak itself is in the list |
| PaperTrading.PeakToTroughBounds | backend/app/services/paper_trading_service.py:195-201 | the corrected peak-to-trough drawdown is never negative, and at most 100 for a positive peak and non-negative values |
| PaperTrading.PeakToTrough | backend/app/services/paper_trading_service.py:195-201 | the corrected drawdown, the largest fall from the running peak; PeakToTroughBounds, PeakToTroughCoversFall and PeakToTroughAttained state that it is that fall |
| PaperTrading.PeakToTroughCoversFall | backend/app/services/paper_trading_service.py:195-201 | the corrected drawdown is at least every point's fall from the running peak before it |
| PaperTrading.PeakToTroughAttained | backend/app/services/paper_trading_service.py:195-201 | the corrected drawdown is 0 or the fall of some point from the running peak before it |
| PaperTrading.MaxDrawdownIsLargestFall | backend/app/services/paper_trading_service.py:195-201 | the corrected maximum drawdown of the curve is its largest fall from the running peak: at least every point's fall, equal to one of them or 0, and between 0 and 100 for a curve that starts positive and stays non-negative |
| PaperTrading.RunningPeakShift | backend/app/services/paper_trading_service.py:200 | the running peak of a list equals the running peak of its tail started from the first value |
| PaperTrading.DrawdownCounterexample | backend/app/services/paper_trading_service.py:195-201 | on the curve 100000 then 99000 the source reports 0 while the corrected drawdown is 1% |
| PaperTrading.SizeWithinRisk | backend/app/services/paper_trading_service.py:230 | int(risk/price) shares cost at most the risk, and one more share would exceed it |
| PaperTrading.PositionSizingCases | backend/app/services/paper_trading_service.py:215-243 | the risk amount is the requested share of the total value; a size is suggested exactly for a non-empty symbol, a positive quote and a non-zero total value, and otherwise the requested percentage is echoed |
| PaperTrading.PositionSizing | backend/app/services/paper_trading_service.py:215-243 | the risk amount, and a suggested size when a positive quote is known; PositionSizingCases and PositionSizingWithinRisk state its cases and bound |
| PaperTrading.PositionSizingWithinRisk | backend/app/services/paper_trading_service.py:229-236 | the suggested size is the largest whole number of shares whose cost stays within the risk |
| Backtesting.ActOnBar | backend/app/services/backtesting_service.py:131-149 | the per-bar decision: enter with int(cash/price) shares when flat, else close the whole long position and record the trade, never both |
| Backtesting.Act | backend/app/services/backtesting_service.py:131-149 | the per-bar decision as a function of the book and the signal; EntryCommits, ExitCommits and ClosingTradeIsRoundTrip state its effect |
| Backtesting.Advance | backend/app/services/backtesting_service.py:131-160 | one bar of the replay: act, then record value, equity point and date; AdvanceSolvent and AdvanceConserves state what it keeps |
| Backtesting.Replayed | backend/app/services/backtesting_service.py:125-160 | the replay of the first k bars; ReplayedConservation, ReplayedSolvent, ReplayedTrades and ReplayedLengths state what holds of it |
| Backtesting.ReplayBar | backend/app/services/backtesting_service.py:131-160 | one replayed bar acts on its signal and appends one value, one equity point (value minus capital) and one date |
| Backtesting.Replay | backend/app/services/backtesting_service.py:125-160 | the simulation loop computes the replay of every bar |
| Backtesting.RsiSignals | backend/app/services/backtesting_service.py:131-137 | the RSI strategy enters when rsi < oversold and exits when rsi > overbought; a NaN RSI does neither |
| Backtesting.SmaSignals | backend/app/services/backtesting_service.py:200-206 | the SMA strategy enters when fast > slow and exits when fast < slow, so a tie holds |
| Backtesting.CustomSignals | backend/app/services/backtesting_service.py:257-267 | the custom strategy enters on True, exits on False, and skips a bar whose signal raises |
| Backtesting.Fired | backend/app/services/backtesting_service.py:256-291 | the count of bars whose signal did not raise is at most the bar count, and equals it exactly when no bar's signal raised |
| Backtesting.BacktestRsi | backend/app/services/backtesting_service.py:92-162 | empty data gives the empty result; otherwise the replay from the second bar, with one sample per bar from index 1 |
| Backtesting.BacktestSma | backend/app/services/backtesting_service.py:165-230 | empty data gives the empty result; otherwise the replay from bar max(fast, slow) |
| Backtesting.BacktestCustom | backend/app/services/backtesting_service.py:233-293 | the replay from the second bar with raising bars skipped: at most n-1 samples, and trades without a percentage |
| Backtesting.ReplayedLengths | backend/app/services/backtesting_service.py:158-160 | the values, equity points and dates stay equally long, one entry per bar that fired, and each equity point is its value minus the capital |
| Backtesting.ReplayedDates | backend/app/services/backtesting_service.py:125-160 | when every signal fires there is one sample per bar, dated by that bar |
| Backtesting.EntryAffordable | backend/app/services/backtesting_service.py:132-134 | int(cash/price) shares cost at most the cash and leave less than one share's price |
| Backtesting.AdvanceSolvent | backend/app/services/backtesting_service.py:131-156 | one bar keeps the cash, the position and the marked value non-negative |
| Backtesting.ReplayedSolvent | backend/app/services/backtesting_service.py:125-160 | with non-negative capital a replay never goes short of cash or shares |
| Backtesting.ReplayedValuesNonNegative | backend/app/services/backtesting_service.py:152-158 | every portfolio value of a replay with non-negative capital is non-negative |
| Backtesting.ClosingTradeIsRoundTrip | backend/app/services/backtesting_service.py:138-147 | a closing trade has a positive quantity, pnl = quantity*(exit - entry), and a percentage guarded by quantity*entry > 0 |
| Backtesting.ReplayedTrades | backend/app/services/backtesting_service.py:137-149 | every trade recorded by a replay is such a closed round trip |
| Backtesting.EntryCommits | backend/app/services/backtesting_service.py:132-134 | entering moves cash into the position at cost |
| Backtesting.ExitCommits | backend/app/services/backtesting_service.py:138-139 | closing returns the position's entry cost plus its pnl to the cash |
| Backtesting.AdvanceConserves | backend/app/services/backtesting_service.py:131-149 | one bar conserves money: cash plus the entry cost of the open position, minus realized pnl, stays the capital |
| Backtesting.ReplayedConservation | backend/app/services/backtesting_service.py:125-160 | a whole replay conserves money in the same sense |
| Backtesting.ReplayedBeforeFirstSample | backend/app/services/backtesting_service.py:120-125 | until a bar fires the book is the opening one and nothing is recorded |
| Backtesting.FirstSampleIsCapital | backend/app/services/backtesting_service.py:131-159 | the first sample of a fresh book is worth exactly the capital, so its equity point is 0 |
| Backtesting.ReplayedFirstValue | backend/app/services/backtesting_service.py:152-159 | a replay's first value is the capital and its first equity point is 0 |
| Backtesting.ReplayedLastValue | backend/app/services/backtesting_service.py:152-158 | a replay that ends flat has its cash as its last value, which is the capital plus the total pnl |
| Backtesting.CumSum | backend/app/services/backtesting_service.py:49 | running sums: the first is the first element and each next adds one element |
| Backtesting.RunningMax | backend/app/services/backtesting_service.py:51 | running maxima: the first is the first element and each next is the max with the next element |
| Backtesting.RunningMaxBounds | backend/app/services/backtesting_service.py:51 | each running maximum bounds its element and the first element |
| Backtesting.FallAtMostOne | backend/app/services/backtesting_service.py:52 | a non-negative value below a positive peak falls by a fraction between 0 and 1 |
| Backtesting.CurveDrawdownBounds | backend/app/services/backtesting_service.py:49-55 | the drawdown of a curve that starts positive is defined, non-negative, and at most 100 when the curve never goes negative |
| Backtesting.CurveDrawdown | backend/app/services/backtesting_service.py:49-55 | the maximum relative fall of a curve from its running maximum, undefined when a running maximum is 0; CurveDrawdownBounds and AsWrittenDrawdownUndefined state when it is defined and its range |
| Backtesting.CalculateMetrics | backend/app/services/backtesting_service.py:28-60 | the metrics of a backtest result, absent without trades or samples; MetricsConsistent and ReturnAgainstReference state them |
| Backtesting.MetricsConsistent | backend/app/services/backtesting_service.py:28-60 | the metrics are absent exactly without trades or samples; otherwise the winners and losers are the counts of positive and negative pnls, the win rate is winners/total*100 and lies in [0,100], total pnl is the sum of the pnls, gross profit the sum of the gains and gross loss the negated sum of the losses, and the profit factor is gross profit/gross loss, or 0 when nothing lost |
| Backtesting.ReturnAgainstReference | backend/app/services/backtesting_service.py:58-60 | the return is measured against a fixed 100000: it is 0 exactly at 100000 and positive exactly above it |
| Backtesting.AsWrittenDrawdownUndefined | backend/app/services/backtesting_service.py:49-53 | for any replay with a trade, the cumulative sum of the equity curve starts at 0, so the drawdown divides 0 by 0 |
| Backtesting.CorrectedDrawdownBounds | backend/app/services/backtesting_service.py:49-55 | the intended drawdown of the portfolio values is always defined and lies between 0 and 100 |
| Backtesting.CounterexampleRun | backend/app/services/backtesting_service.py:125-160 | buying 1000 shares at 100 with 100000, then selling at 90, gives the stated trade, values and equity curve |
| Backtesting.DrawdownCounterexample | backend/app/services/backtesting_service.py:49-53 | on that run the source's drawdown is undefined while the portfolio fell 10% |
| Backtesting.TenPercentFall | backend/app/services/backtesting_service.py:51-53 | the curve 100000 then 90000 has a 10% drawdown |
| MockStore.FirstMatch | backend/app/config/mongodb.py:20-31 | the first stored document that matches every query pair, or none matches |
| MockStore.Matches | backend/app/config/mongodb.py:23-27 | a document matches a query when each queried field equals the queried value, a missing field reading as None; MatchesQuery shows the source's loop decides exactly this |
| MockStore.Matching | backend/app/config/mongodb.py:46-60 | the tagged copies of the matching documents, in insertion order; MatchingExactly and FindAll state which documents they are |
| MockStore.Put | backend/app/config/mongodb.py:36 | storing a document under a key, in place for a known key and appended for a new one; InsertFresh and InsertThenFind state its effect |
| MockStore.FindOneStep | backend/app/config/mongodb.py:20-31 | find_one as a function of the entries: the tagged store and the first match; FindOneTwice and IdsTaggedPreserved state its effect |
| MockStore.DeleteOneStep | backend/app/config/mongodb.py:65-75 | delete_one as a function of the entries: the store without the first match and the count; DeleteOneEffect states its effect |
| MockStore.KeyIndex | backend/app/config/mongodb.py:36 | the entry under a key, or no entry has it |
| MockStore.MatchesQuery | backend/app/config/mongodb.py:23-27 | the query loop accepts exactly the documents whose fields equal every query pair, a missing field being None |
| MockStore.MockCollection.constructor | backend/app/config/mongodb.py:16-18 | the collection wraps the given dictionary |
| MockStore.MockCollection.FindOne | backend/app/config/mongodb.py:20-31 | find_one returns the first match and writes its key into the stored document's _id |
| MockStore.MockCollection.InsertOne | backend/app/config/mongodb.py:33-39 | the document is stored under the given id and that id is returned |
| MockStore.MockCollection.Find | backend/app/config/mongodb.py:41-63 | find returns tagged copies of the matches in insertion order and leaves the store alone |
| MockStore.MockCollection.DeleteOne | backend/app/config/mongodb.py:65-75 | delete_one removes the first match and reports 1, or reports 0 |
| MockStore.MatchingExactly | backend/app/config/mongodb.py:46-60 | find returns a tagged copy of every match and nothing else |
| MockStore.FindAll | backend/app/config/mongodb.py:47-50 | find(None) returns every stored document, tagged, in order |
| MockStore.InsertThenFind | backend/app/config/mongodb.py:33-63 | a document inserted under a new key is found after every earlier match |
| MockStore.InsertFresh | backend/app/config/mongodb.py:36 | inserting under a new key keeps the keys distinct, grows the store by one and puts the document last |
| MockStore.IdsTaggedPreserved | backend/app/config/mongodb.py:20-75 | find_one and delete_one keep every stored _id naming its own key, and so does inserting a document without _id |
| MockStore.QueryByIdMatchesOwner | backend/app/config/mongodb.py:20-31 | a query on _id = k can only match the document stored under k, after find_one tagged it |
| MockStore.DeleteOneEffect | backend/app/config/mongodb.py:65-75 | with a match, exactly the first matching entry is removed and the rest keep their order; without one nothing changes |
| MockStore.FindOneTwice | backend/app/config/mongodb.py:20-31 | for a query not on _id, a second find_one returns the same document and leaves the store as the first left it |
| PortfolioHoldings.NetsAppend | backend/app/controllers/portfolio.py:41-52 | the net quantity and net amount split over a concatenation of logs |
| PortfolioHoldings.NetsIgnoreOrder | backend/app/controllers/portfolio.py:41-52 | the nets do not depend on the order of the transactions |
| PortfolioHoldings.IndexOf | backend/app/controllers/portfolio.py:45 | the holding entry for a symbol, or no entry has it |
| PortfolioHoldings.Record | backend/app/controllers/portfolio.py:44-52 | one loop pass applies one transaction: a new symbol starts at zero, a buy adds and any other type subtracts |
| PortfolioHoldings.Apply | backend/app/controllers/portfolio.py:44-52 | one transaction applied to the holdings as a function; ApplyEffect states that only its symbol moves, by its signed values |
| PortfolioHoldings.Fold | backend/app/controllers/portfolio.py:41-52 | the holdings of a whole log; FoldIsNet, NetsAppend and NetsIgnoreOrder state that they are the net quantities and amounts |
| PortfolioHoldings.AggregateHoldings | backend/app/controllers/portfolio.py:41-52 | the loop computes the fold of the whole log |
| PortfolioHoldings.FoundAtOwnIndex | backend/app/controllers/portfolio.py:45 | with distinct symbols an entry is found at its own index |
| PortfolioHoldings.ApplyEffect | backend/app/controllers/portfolio.py:47-52 | one transaction moves only its own symbol's quantity and amount, by its signed values |
| PortfolioHoldings.FoldIsNet | backend/app/controllers/portfolio.py:41-52 | the fold has one entry per symbol, carrying exactly that symbol's net quantity and net amount |
| PortfolioHoldings.Kept | backend/app/controllers/portfolio.py:55 | the filter keeps exactly the holdings with a positive quantity |
| PortfolioHoldings.KeptAreNet | backend/app/controllers/portfolio.py:41-55 | every kept holding carries its symbol's positive net quantity and its net amount |
| PortfolioHoldings.HoldingsAreNetPositive | backend/app/controllers/portfolio.py:41-55 | a symbol appears in the holdings exactly when its net quantity is positive |
| PortfolioHoldings.Views | backend/app/controllers/portfolio.py:62-83 | one row per holding, keeping its symbol, quantity and total cost and valued at its quote (a missing price counting as 0); each row gains its value minus its cost, its average cost times its quantity is its cost, and so the gains add up to the total value minus the total cost |
| PortfolioHoldings.QuotedPrice | backend/app/controllers/portfolio.py:63-64 | the quoted price of a symbol, 0 when the quote has none; Views and ValueRows use it for every row |
| PortfolioHoldings.View | backend/app/controllers/portfolio.py:66-80 | the row of one holding at a price; ViewConsistent states its gain, average cost and percentage |
| PortfolioHoldings.Summary | backend/app/controllers/portfolio.py:85-95 | the portfolio totals over the rows; SummaryAddsUp states that the total gain is the sum of the row gains |
| PortfolioHoldings.AddRow | backend/app/controllers/portfolio.py:80-81 | adding a row adds its value and its cost to the running totals |
| PortfolioHoldings.ValueRows | backend/app/controllers/portfolio.py:58-83 | the valuation loop builds the rows, a missing price counting as 0, and the value and cost totals are the sums over them |
| PortfolioHoldings.ValuePortfolio | backend/app/controllers/portfolio.py:58-95 | the result is the summary of the rows |
| PortfolioHoldings.ViewConsistent | backend/app/controllers/portfolio.py:62-69 | a row's gain is its value minus its cost, its average cost times its quantity is its cost, and with a positive cost the percentage is positive exactly when the value exceeds the cost, else it is 0 |
| PortfolioHoldings.SummaryAddsUp | backend/app/controllers/portfolio.py:85-95 | the total gain is the sum of the rows' gains, total value minus total cost, and its percentage is 0 unless the total cost is positive |
| PortfolioHoldings.GainsAreDifferences | backend/app/controllers/portfolio.py:66-86 | the sum of the gains is the sum of the values minus the sum of the costs |
| PortfolioHoldings.GetPortfolio | backend/app/controllers/portfolio.py:41-95 | the portfolio is the fold, filtered and valued; its gain is the sum of the rows' gains, and every row holds a positive quantity |
| PortfolioHoldings.ValidationExact | backend/app/controllers/portfolio.py:112-125 | a transaction is accepted exactly when its type is buy or sell and quantity and price are positive; the stored record has the upper-cased symbol and the positive amount quantity*price |
| PortfolioHoldings.ValidateTransaction | backend/app/controllers/portfolio.py:112-127 | the validation of a new transaction and the record it stores; ValidationExact states when it accepts and what it stores |
| PortfolioHoldings.BuyThenSellNetsOut | backend/app/controllers/portfolio.py:41-55 | a validated buy and a validated sale of the same quantity leave a net quantity of 0, so the symbol is dropped |
| WebSocketBook.WebSocketService.constructor | backend/app/services/websocket_service.py:8-10 | the service starts with no connections and no subscriptions |
| WebSocketBook.WebSocketService.Register | backend/app/services/websocket_service.py:13-15 | register adds the socket to the connections, and the service keeps every subscription set non-empty |
| WebSocketBook.WebSocketService.Unregister | backend/app/services/websocket_service.py:18-25 | the loop over the symbols removes the socket everywhere and deletes emptied symbols, keeping every subscription set non-empty |
| WebSocketBook.WebSocketService.Subscribe | backend/app/services/websocket_service.py:28-32 | subscribe creates the symbol if absent and adds the socket, keeping every subscription set non-empty |
| WebSocketBook.WebSocketService.Unsubscribe | backend/app/services/websocket_service.py:43-48 | unsubscribe removes the socket and deletes the symbol when its set empties, keeping every subscription set non-empty |
| WebSocketBook.WebSocketService.HandleMessage | backend/app/services/websocket_service.py:71-96 | the reply and the new tables are those of the message handler, and every subscription set stays non-empty |
| WebSocketBook.WebSocketService.BroadcastQuote | backend/app/services/websocket_service.py:50-69 | exactly the symbol's subscribers whose send failed are disconnected, they are dropped from every table, and every subscription set stays non-empty |
| WebSocketBook.DroppedNothing | backend/app/services/websocket_service.py:68-69 | dropping no socket changes nothing on tables without empty sets |
| WebSocketBook.Registered | backend/app/services/websocket_service.py:13-15 | the tables after register; RegisterEffect states its effect |
| WebSocketBook.Subscribed | backend/app/services/websocket_service.py:28-32 | the tables after subscribe; SubscribeEffect states its effect |
| WebSocketBook.Unsubscribed | backend/app/services/websocket_service.py:43-48 | the tables after unsubscribe; UnsubscribeEffect states its effect |
| WebSocketBook.Dropped | backend/app/services/websocket_service.py:18-25 | the tables after closing a set of sockets; UnregisterEffect, BroadcastDropsOnlyFailed and DroppedAgain state its effect |
| WebSocketBook.Handled | backend/app/services/websocket_service.py:71-96 | the tables and the reply after handle_message; HandleMessageActsOnlyOnRequests states when it acts |
| WebSocketBook.DroppedAgain | backend/app/services/websocket_service.py:68-69 | unregistering one more socket is dropping the larger set |
| WebSocketBook.OperationsKeepSetsNonEmpty | backend/app/services/websocket_service.py:13-90 | every operation keeps every subscription set non-empty |
| WebSocketBook.RegisterEffect | backend/app/services/websocket_service.py:13-15 | register adds the socket and changes nothing else |
| WebSocketBook.SubscribeEffect | backend/app/services/websocket_service.py:28-32 | after subscribe the socket follows the symbol and every other symbol is unchanged |
| WebSocketBook.UnsubscribeEffect | backend/app/services/websocket_service.py:43-48 | after unsubscribe the socket no longer follows the symbol, everything else is unchanged, and an unknown symbol is a no-op |
| WebSocketBook.UnregisterEffect | backend/app/services/websocket_service.py:18-25 | unregister takes the socket out of everything and leaves every other socket's subscriptions alone |
| WebSocketBook.SubscribeUnsubscribeRoundTrip | backend/app/services/websocket_service.py:28-48 | subscribing a new follower and unsubscribing it restores the tables |
| WebSocketBook.RegisterUnregisterRoundTrip | backend/app/services/websocket_service.py:13-25 | registering a new socket and unregistering it restores the tables |
| WebSocketBook.HandleMessageActsOnlyOnRequests | backend/app/services/websocket_service.py:71-96 | the tables change only on subscribe/unsubscribe with a non-empty symbol, which is upper-cased; bad JSON gets the error reply |
| WebSocketBook.BroadcastDropsOnlyFailed | backend/app/services/websocket_service.py:60-69 | a broadcast disconnects exactly the symbol's subscribers whose send failed; they leave the connections and every subscription set, and every other socket, a failed one that does not follow the symbol included, keeps all its subscriptions |
| Patterns.CandleFlagsShape | backend/app/services/pattern_service.py:13-25 | one 0/1 flag per candle, 1 exactly for a doji (body at most a tenth of the range) or a hammer, the same for a candle and its open/close mirror |
| Patterns.IsDoji | backend/app/services/pattern_service.py:14-18 | a candle whose body is at most a tenth of its high-low range; CandleFlagsShape and CandleShapes state its properties |
| Patterns.IsHammer | backend/app/services/pattern_service.py:20-25 | a candle whose lower shadow is at least twice its body and whose upper shadow is at most its body; CandleFlagsShape and CandleShapes state its properties |
| Patterns.DetectCandlestickPatterns | backend/app/services/pattern_service.py:7-27 | the doji and hammer flag lists of a non-empty history; CandleFlagsShape states their length, values and meaning |
| Patterns.CandleShapes | backend/app/services/pattern_service.py:14-24 | a hammer's low is at or below its body, a doji's high is at least its low, and a doji with no range has no body |
| Patterns.Strength | backend/app/services/pattern_service.py:59-65 | the touch count never exceeds the number of prices |
| Patterns.Touches | backend/app/services/pattern_service.py:63 | a price within the relative tolerance of a level, as numpy compares (a zero level touches nothing); StrengthBounds states what it counts |
| Patterns.LevelStrength | backend/app/services/pattern_service.py:59-65 | the loop counts the prices within the relative tolerance of the level |
| Patterns.StrengthBounds | backend/app/services/pattern_service.py:59-65 | a positive level that occurs among the prices has strength at least 1; a negative level touches every price, a zero level none |
| Patterns.LastFive | backend/app/services/pattern_service.py:55-56 | the last five entries, or all when fewer |
| Patterns.ExtendLevels | backend/app/services/pattern_service.py:37-52 | one loop index adds a level exactly when the price is the min (or max) of its window |
| Patterns.ScanLevels | backend/app/services/pattern_service.py:37-52 | the loop finds every support and every resistance level |
| Patterns.DetectSupportResistance | backend/app/services/pattern_service.py:29-57 | the last five supports and resistances |
| Patterns.MinMaxTest | backend/app/services/pattern_service.py:39-47 | comparing with the window's min (max) is the same as being no higher (lower) than every neighbour |
| Patterns.AppendLevel | backend/app/services/pattern_service.py:40-52 | appending a sound level after the earlier indices keeps the list sound and increasing |
| Patterns.LevelsSound | backend/app/services/pattern_service.py:37-52 | every found level is an extreme of its window at an index in [window, len-window), in increasing index order |
| Patterns.AllLevels | backend/app/services/pattern_service.py:37-52 | the levels of every index in range(window, len-window); LevelsSound and LevelsComplete state that they are exactly the window extremes |
| Patterns.LevelsComplete | backend/app/services/pattern_service.py:37-52 | every index that is an extreme of its window is found |
| Patterns.FoundLevelTouchesItself | backend/app/services/pattern_service.py:43-65 | a found positive level has strength between 1 and the number of prices |
| Patterns.SuffixOfLevels | backend/app/services/pattern_service.py:55-56 | a suffix of a sound increasing list is sound, increasing, and later than what was cut |
| Patterns.DetectedLevels | backend/app/services/pattern_service.py:37-57 | at most five levels are returned, all sound, increasing, and the latest found |
| Patterns.TrendPoints | backend/app/services/pattern_service.py:84-87 | the last four points when there are at least four, otherwise none |
| Patterns.DetectTrendLines | backend/app/services/pattern_service.py:67-89 | the uptrend uses the troughs and the downtrend the peaks |
| Patterns.AppendPoint | backend/app/services/pattern_service.py:77-82 | appending a sound turn after the earlier ones keeps the list sound and increasing |
| Patterns.TurnsSound | backend/app/services/pattern_service.py:75-82 | every peak (trough) is a strict local max (min) at an index in [2, len-2), in increasing order |
| Patterns.AllTurns | backend/app/services/pattern_service.py:75-82 | the peaks or troughs of every index in range(2, len-2); TurnsSound and TurnsComplete state that they are exactly the strict local extremes |
| Patterns.TurnsComplete | backend/app/services/pattern_service.py:75-82 | every strict local max (min) in that range is found |
| Patterns.PeaksAndTroughsDisjoint | backend/app/services/pattern_service.py:75-82 | no index is both a peak and a trough |
| Charting.HaOpenColumn | backend/app/services/charting_service.py:89-93 | the in-place loop fills HA_Open with the recurrence from (O0+C0)/2 |
| Charting.HaOpen | backend/app/services/charting_service.py:89-93 | the Heikin-Ashi open by its recurrence; HaOpenColumn computes it in place and HeikinAshiInBand bounds it |
| Charting.HeikinAshiCandles | backend/app/services/charting_service.py:86-96 | the Heikin-Ashi candle of every bar; HeikinAshiEncloses states how each encloses its open, close and range |
| Charting.HeikinAshi | backend/app/services/charting_service.py:83-108 | the Heikin-Ashi candles of the bars, empty for no bars |
| Charting.HeikinAshiEncloses | backend/app/services/charting_service.py:87-96 | HA_Close is (O+H+L+C)/4, and HA_High and HA_Low enclose the HA open, the HA close and the bar's own range |
| Charting.HeikinAshiInBand | backend/app/services/charting_service.py:87-93 | with well-formed bars inside a price band, every HA open and close stays inside the band |
| Charting.CompareStocks | backend/app/services/charting_service.py:111-129 | one normalised series per requested symbol with data |
| Charting.Comparison | backend/app/services/charting_service.py:111-129 | the normalised series of every requested symbol with data; CompareStocks and ComparisonFromFirstClose state it |
| Charting.ComparisonFromFirstClose | backend/app/services/charting_service.py:117-119 | each series starts at 0%, and a point is above 0% exactly when its close is above the first close |
| Charting.FibonacciRatios | backend/app/services/charting_service.py:138-150 | seven levels from the lowest low (0%) to the highest high (100%), each low + diff*ratio |
| Charting.FibonacciLevels | backend/app/services/charting_service.py:132-152 | the seven retracement levels of the bars, none for no bars; FibonacciRatios and FibonacciAscending state them |
| Charting.FibonacciAscending | backend/app/services/charting_service.py:138-150 | with well-formed bars the levels ascend from 0% to 100% |
| Charting.PivotsMirrorAndOrder | backend/app/services/charting_service.py:161-174 | pivot = (H+L+C)/3, supports mirror resistances around it, and they are ordered when H >= L |
| Charting.PivotPoints | backend/app/services/charting_service.py:155-174 | the pivot, supports and resistances of the last bar, none for no bars; PivotsMirrorAndOrder states them |
| Charting.InsertDescendingElements | backend/app/services/charting_service.py:200 | inserting into the sorted list adds exactly the new value |
| Charting.InsertDescendingSorted | backend/app/services/charting_service.py:200 | inserting keeps a strictly descending list strictly descending, headed by the larger of the new value and the old head |
| Charting.SortedDistinctDescendingSorted | backend/app/services/charting_service.py:200 | sorted(set(xs), reverse=True) is strictly descending and has exactly the values of xs |
| Charting.SortedDistinctDescending | backend/app/services/charting_service.py:200-201 | sorted(set(xs), reverse=True); SortedDistinctDescendingSorted and DescendingUnique state that it is the descending list of the values of xs |
| Charting.HeadIsLargest | backend/app/services/charting_service.py:200 | the head of a strictly descending list is its largest element |
| Charting.SameTails | backend/app/services/charting_service.py:200 | two descending lists with the same values and the same head have tails with the same values |
| Charting.DescendingUnique | backend/app/services/charting_service.py:200 | two strictly descending lists with the same values are equal, so the sorted set is uniquely determined |
| Charting.PyTake | backend/app/services/charting_service.py:200-201 | Python's [:n]: a prefix of length min(n, len) for n >= 0, dropping -n elements for negative n |
| Charting.CollectTurns | backend/app/services/charting_service.py:188-197 | the loop collects the strict local extrema at indices 1..len-2 |
| Charting.GetSupportResistance | backend/app/services/charting_service.py:177-206 | the supports come from the lows and the resistances from the highs, deduplicated, sorted descending and cut to num_levels |
| Charting.TurnValuesSound | backend/app/services/charting_service.py:188-197 | every collected value is a strict local extremum |
| Charting.TurnValuesComplete | backend/app/services/charting_service.py:188-197 | every strict local extremum is collected |
| Charting.LevelsAreTopTurns | backend/app/services/charting_service.py:188-201 | the levels are strictly descending, at most num_levels, all local extrema, and larger than every extremum left out |
| Charting.ChannelsShape | backend/app/services/charting_service.py:215-222 | one band entry per complete window, none for a window of 0 (its all-NaN bands are dropped), and the middle band is the midpoint of the others |
| Charting.ChannelsBracket | backend/app/services/charting_service.py:215-217 | the upper band bounds every high in its window and the lower band every low, with the middle between them for well-formed bars |
| Charting.Channels | backend/app/services/charting_service.py:209-222 | the Donchian bands of the bars; ChannelsShape and ChannelsBracket state their length and what they bound |
| Screener.CheckFundamentals | backend/app/services/screener_service.py:104-129 | the price, market-cap, P/E and volume steps keep a stock exactly when the fundamentals predicate holds |
| Screener.CheckIndicators | backend/app/services/screener_service.py:131-143 | the RSI and crossover steps keep a stock exactly when the indicator predicate holds |
| Screener.Check | backend/app/services/screener_service.py:99-147 | a symbol is kept exactly when it has information and passes every step |
| Screener.Truthy | backend/app/services/screener_service.py:105-133 | Python truthiness of an optional number: None and 0 are false, NaN is true; ZeroDisablesBound and RsiFilters state its effect on the filters |
| Screener.Crossover | backend/app/services/screener_service.py:73 | the crossover label, bullish exactly when sma_50 > sma_200; CrossoverFilter states it |
| Screener.Keeps | backend/app/services/screener_service.py:104-143 | the whole filter ladder of one stock; KeptSatisfiesBounds states what a kept stock satisfies |
| Screener.Screen | backend/app/services/screener_service.py:98-153 | the results of screening a list of symbols; ScreenSplits, ScreenMembership and ScreenShorter state them |
| Screener.ScreenByCriteria | backend/app/services/screener_service.py:79-153 | the loop keeps, in order, the symbols that pass, with their RSI and moving averages attached |
| Screener.ScreenSplits | backend/app/services/screener_service.py:98-147 | screening a concatenation screens each part in turn, so the order is preserved |
| Screener.ScreenMembership | backend/app/services/screener_service.py:98-147 | a record is a result exactly when it comes from a listed symbol that passes, and every result passes |
| Screener.ScreenShorter | backend/app/services/screener_service.py:98-147 | there are never more results than symbols |
| Screener.KeptSatisfiesBounds | backend/app/services/screener_service.py:105-129 | a kept stock satisfies every active bound, and a P/E ratio rejects only when present, non-zero and above the bound |
| Screener.ZeroDisablesBound | backend/app/services/screener_service.py:105-129 | a bound of 0 is falsy and switches its filter off, exactly like leaving it out |
| Screener.RsiFilters | backend/app/services/screener_service.py:132-137 | with a numeric non-zero RSI, oversold keeps only RSI < 30, overbought only RSI > 70, and both keep nothing; a missing, zero or NaN RSI passes both |
| Screener.CrossoverFilter | backend/app/services/screener_service.py:140-143 | the label is bullish exactly when sma_50 > sma_200 (ties and NaN are bearish), and the filter rejects only when averages exist and the label differs |
| Currency.ConvertPriceCases | backend/app/services/currency_service.py:17-23 | USD is the identity, a known code multiplies by its rate, and an unknown code falls back to rate 1.0 |
| Currency.ConvertPrice | backend/app/services/currency_service.py:17-23 | convert_price; ConvertPriceCases and ConversionMonotone state its cases and order |
| Currency.CurrencySymbol | backend/app/services/currency_service.py:25-36 | get_currency_symbol; TablesAgree states its agreement with the other tables |
| Currency.ConversionMonotone | backend/app/services/currency_service.py:7-23 | every rate is positive, so conversion keeps sign and order and can be undone by dividing by the rate |
| Currency.TablesAgree | backend/app/services/currency_service.py:7-48 | get_supported_currencies is a constant table; the rate, symbol and supported-currency tables cover the same codes and agree on symbols, with "$" and rate 1.0 for an unknown code |

## Left out

- Market data fetching (yfinance downloads and tickers) is not modelled. Price bars, RSI and SMA series, stock information, quotes and the sizing price are parameters.
- The rolling RSI and SMA computations of pandas are not modelled. The indicator series are inputs, with a missing value standing for NaN.
- The Sharpe ratio of a backtest result is not modelled, because it is floating-point numerics (standard deviation and square root).
- The polyfit trend-line fit is not modelled. `Patterns.TrendPoints` returns the four points the fit would receive.
- `get_candlestick_data`, `get_ohlc_data` and the timestamp formatting of the charting service are not modelled, because they are I/O and formatting. Bars carry their time as an integer.
- Timestamps and uuid4 ids are left out. `MockStore.MockCollection.InsertOne` takes the generated id as a parameter, and orders carry no timestamp.
- The diagnostic `print` calls of the document store and of the screener are not modelled.
- The module-level dictionaries, their getter functions and the three collection instances of the document store are not modelled. They only return or wrap the dictionaries.
- `MockStore.MockCollection.FindOne` and the other store operations assume every stored value is a document. A stored value that is not a dictionary is not modelled.
- `MockStore.MockCollection.FindOne` returns the stored document by value. The aliasing of the dictionary it returns is not modelled.
- The database session, authentication and HTTP layer of the portfolio controller are not modelled. The transaction log and the quotes are inputs.
- WebSocket sends, the JSON wire format, the initial quote sent on subscribe and the `start_price_updates` loop are left out, because they are asynchronous I/O.
- `WebSocketBook.WebSocketService.HandleMessage` treats a message that is not a JSON object, or whose symbol is not a string, as not modelled. In the program these raise out of the handler.
- `get_trade_history` returns the trade log as it is. It is the `trades` field of `PaperTrading.PaperTradingService` and has no member of its own.
- `get_top_gainers`, `get_top_losers` and `get_most_active` of the screener are placeholders that return empty lists, and are not modelled.
- `Screener.ScreenByCriteria` assumes a repeated moving-average download of one symbol returns the same data. It also treats an exception while screening a symbol as the symbol having no information.
- `Charting.CompareStocks` takes one fetched history per symbol. A symbol listed twice is fetched once.
- Floating point is modelled as real numbers. NaN and infinities are modelled only where they decide a branch or a result:
  - the screener's RSI and averages;
  - the backtest signals;
  - the undefined backtest drawdown;
  - a zero first close in a comparison series, where `Charting.PctChange` gives no percentage;
  - a zero level in the level strength, which `Patterns.Touches` never counts as touched.
- `PaperTrading.PaperTradingService.Buy` (and `PaperTrading.BuyStep`) requires a positive quantity; the request body does not validate the quantity (backend/app/controllers/paper_trading.py:15-17), so the source also accepts the cases below, which the model does not capture:
  - a zero-quantity buy of a symbol already held succeeds: it costs nothing, moves the mark to the order price and appends an order;
  - a zero-quantity first buy debits nothing, inserts a zero-quantity entry and then raises ZeroDivisionError in the weighted average, leaving that entry behind;
  - a negative quantity passes the cash check, raises the cash by |quantity|*price and shrinks the position, possibly below zero; when it cancels the held quantity exactly, it raises ZeroDivisionError after the cash has already changed.
- `PaperTrading.GetPortfolioValue` requires a non-zero initial cash, because the return percentage divides by it. The same applies to `PaperTrading.PositionSizing`.
- `Backtesting.Replay` requires positive closing prices, because entry divides the cash by the price. So do `Backtesting.BacktestRsi`, `Backtesting.BacktestSma` and `Backtesting.BacktestCustom`.
- `Charting.ChannelsBracket` requires a window of at least 1, because a window of 0 has no band entries to bound. `Charting.Channels` models that window: pandas makes its bands all NaN and dropna removes them. The channels endpoint only passes windows from 5 to 50 (backend/app/controllers/charting.py:102).
- `Patterns.DetectSupportResistance` models prices as reals. A level of 0 divides by zero in numpy, which gives no touch, and the model counts it the same way.
- `Patterns.DetectCandlestickPatterns` requires at least one candle. With no candle the data frame has no price columns, so the source raises a KeyError. The patterns endpoint rejects an empty history before calling it (backend/app/controllers/patterns.py:16-18).
- `PortfolioHoldings.ValidateTransaction` upper-cases the symbol only on the ASCII letters a-z. Python's `str.upper` also maps other letters, and can change the length of the symbol ('ß' becomes 'SS').
- `WebSocketBook.WebSocketService.HandleMessage` upper-cases the requested symbol only on the ASCII letters a-z, for the same reason.

## Findings

| source | as written | input that shows it | evidently intended | confidence | as-written member | corrected member |
|---|---|---|---|---|---|---|
| backend/app/services/paper_trading_service.py:200-201 | the "max drawdown" is the minimum of the per-point drawdowns from the global peak, and the peak is one of the points, so it is always 0 | initial cash 100000 and one trade with pnl -1000 (curve 100000, 99000) reports 0 | the largest fall from the running peak, 1% here | not executed | PaperTrading.AsWrittenDrawdownIsZero | PaperTrading.MaxDrawdownIsLargestFall |
| backend/app/services/backtesting_service.py:49-53 | the drawdown is taken over the cumulative sum of the equity curve, whose first point is 0, so the running maximum starts at 0 and numpy divides 0 by 0 (NaN) | capital 100000, closes 100 then 90, enter on the first bar and exit on the second (1000 shares, pnl -10000) | the largest relative fall of the portfolio values from their running peak, 10% here | not executed | Backtesting.AsWrittenDrawdownUndefined | Backtesting.CorrectedDrawdownBounds |
