# market_momentum scripts, modelled in Dafny

The scripts score stocks by five technical indicators and use those scores
in two ways. They rank a folder of price files, best total first. They also
run a walk-forward backtest that holds the best-scored stock for a fixed
period, with a stop-loss.

This project models those scripts and proves properties of the model:

- **Indicator scoring.** The five analyzers (`analyze_ema`, `analyze_rsi`,
  `analyze_adx`, `analyze_donchian` and `analyze_volume`) each turn a price
  history into a 1–5 score and an optional entry or exit price.
- **Ticker files.** The ticker-file readers (`load_stock_descriptions`, as a
  dictionary and as a list, and `get_first_stock_symbol`) are modelled on
  the lines of the file.
- **Ranking scans.** Three scripts score every `.csv` file of a folder and
  sort the records best first. The plain scan, the selected-day variant and
  the market-cap variant are each modelled. The market-cap variant also
  picks the ten best records that reach the cap threshold.
- **Backtest.** The score table is built day by day from the in-window
  history of every file, and `get_best_stock` picks the best symbol of a
  day. `backtest` then steps through the periods:
  - it buys the best symbol at the day's open;
  - it scans the period for a stop-loss breach, which sells at the stop
    price and buys the best symbol of the breach day;
  - it marks the position to market at the period's end.
- **Price variation.** `calculate_price_variation` gives the latest close and
  its percentage change against the closes two and six weeks earlier.
- **Yahoo fundamentals.** The merge of each ticker entry with the eleven
  fields fetched from Yahoo Finance.

The modules are:

| module | file | models |
|---|---|---|
| `Market` | market.dfy | bars, CSV files, the date filters, file name ↔ symbol |
| `Indicators` | indicators.dfy | the five analyzers and the total score |
| `Descriptions` | descriptions.dfy | the ticker-file readers shared by the scripts |
| `Ranking` | ranking.dfy | `sort_values(ascending=False)` on a numeric key |
| `Analysis` | analysis.dfy | `analyze_all_stocks.py` and `analyze_all_stock_past.py` |
| `MarketCapFilter` | market_cap.dfy | `analyze_all_stocks_with_market_cap_filter.py` |
| `ScoreTable` | score_table.dfy | `get_stock_data`, `load_and_score_stock_data`, `get_best_stock` |
| `Backtest` | backtest.dfy | `backtest` |
| `PriceVariation` | price_variation.dfy | `calculate_price_variation` |
| `Complement` | complement.dfy | `complement_with_yahoo_data.py` |
| `FirstSymbol` | first_symbol.dfy | `get_stocks_from_tickers.py` |

Conventions:

- **Dates** are day numbers.
- **Prices, volumes and money** are `real`.
- **A price CSV** is the set of its column names plus its rows in file
  order. A folder is a map from file name to file. The order of
  `os.listdir` is a sequence of names given to the scans.
- **The indicator series** computed by the `ta` library (EMA 20/50, RSI,
  ADX with ±DI, Donchian bands) are inputs to the analyzers. Where a script
  scores many histories, they come from a function parameter whose series
  always match the length of the history they are computed on.
- **Exceptions.** Each one the scripts swallow is modelled as the branch it
  takes. An exception that ends a script is an `Option`/`None` or
  `Crashed` result.

The code is followed where it differs from the scripts' own descriptions:

- The backtest never logs a "Switch" action; switches are only printed. The
  log holds `Stop-Loss` and `Reevaluate` entries.
- After a stop-loss, the period still ends with a `Reevaluate` entry for the
  newly bought stock.
- ADX values between 20 and 25 score neutral, like values below 20.
- An EMA pair that is exactly equal scores 2, mild bearish.

## Model

| member | source | states |
|---|---|---|
| Market.UpTo | scripts/analyze_all_stock_past.py:72 | definition: the rows dated on or before the day, in file order; Market.UpToMembers, Market.UpToAppend and Market.UpToIgnoresLaterRows state its properties |
| Market.Between | scripts/backtesting_stock_analysis.py:98 | definition: the rows dated in [start, end], in file order; Market.BetweenMembers and Market.BetweenAppend state its properties |
| Market.SymbolOfFile | scripts/analyze_all_stocks.py:148 | definition: the file name with `.csv` removed; Market.RemoveDotFree and Market.SymbolFileRoundTrip state its properties |
| Market.FileOfSymbol | scripts/backtesting_stock_analysis.py:60 | definition: the file name `symbol.csv`; Market.SymbolFileRoundTrip states that SymbolOfFile reads it back |
| Market.UpToMembers | scripts/analyze_all_stock_past.py:61-72 | a row is kept by the selected-day filter iff it is a row of the file dated on or before the day |
| Market.UpToIdempotent | scripts/analyze_all_stock_past.py:72 | filtering an already filtered frame by the same day changes nothing |
| Market.UpToAppend | scripts/analyze_all_stock_past.py:72 | the filter of a concatenation is the concatenation of the filters (row order kept) |
| Market.UpToIgnoresLaterRows | scripts/analyze_all_stock_past.py:72 | rows dated after the day cannot change the filtered frame (no look-ahead) |
| Market.UpToNone | scripts/analyze_all_stock_past.py:72 | a file whose rows are all later than the day filters to the empty frame |
| Market.UpToAll | scripts/analyze_all_stock_past.py:72 | a file whose rows are all on or before the day is kept whole |
| Market.UpToIsPrefix | scripts/backtesting_stock_analysis.py:107 | on a chronological file the filtered rows are a prefix of the file, as the label slice `loc[:date]` is |
| Market.BetweenMembers | scripts/backtesting_stock_analysis.py:98 | a row is in the test window iff it is a row of the file with start ≤ date ≤ end |
| Market.BetweenAppend | scripts/backtesting_stock_analysis.py:98 | the window of a concatenation is the two windows, in order |
| Market.UpToBetween | scripts/backtesting_stock_analysis.py:98-107 | cutting the window at a day gives the window of the rows up to that day |
| Market.SymbolFileRoundTrip | scripts/backtesting_stock_analysis.py:60 | the symbol read back from `f"{symbol}.csv"` by `.replace('.csv', '')` is the symbol |
| Market.RemoveDotFree | scripts/analyze_all_stocks.py:148 | removing `.csv` from a dot-free stem followed by `.csv` gives the stem |
| Indicators.EntryExitExclusive | scripts/indicators.py:48-58 | an analyzer never gives both an entry and an exit price, and gives neither exactly when it scores 3 |
| Indicators.AnalyzeEma | scripts/indicators.py:48-58 | neutral below 50 bars, never 3 from 50 bars on; an entry price only for scores 4–5 and an exit price only for 1–2, both the last close |
| Indicators.EmaBullishIffFastAbove | scripts/indicators.py:50-57 | from 50 bars on, the score is bullish (≥ 4) iff the fast EMA is above the slow one on the last bar |
| Indicators.EmaStrongOnlyOnCross | scripts/indicators.py:50-57 | 5 iff a golden cross on the last bar, 1 iff a death cross; equal EMAs score 2 |
| Indicators.AnalyzeRsi | scripts/indicators.py:75-88 | neutral below 14 bars; well-formed signal |
| Indicators.RsiDivergenceFirst | scripts/indicators.py:76-81 | a bullish divergence scores 5 and a bearish one 1, whatever the RSI level |
| Indicators.RsiThresholds | scripts/indicators.py:82-87 | without divergence: 4 iff RSI < 30, 2 iff RSI > 70, 3 iff 30 ≤ RSI ≤ 70 |
| Indicators.AnalyzeAdx | scripts/indicators.py:108-116 | neutral below 14 bars; score in {1, 3, 5} |
| Indicators.AdxStrongTrend | scripts/indicators.py:109-115 | the score is not neutral iff ADX > 25; 5 iff ADX > 25 and +DI > −DI |
| Indicators.AnalyzeDonchian | scripts/indicators.py:135-142 | neutral below 20 bars; score in {1, 3, 5} |
| Indicators.DonchianInsideChannel | scripts/indicators.py:136-141 | a close inside the previous bar's channel is neutral |
| Indicators.DonchianBreakouts | scripts/indicators.py:136-139 | from 20 bars on, 5 iff the close is above the previous bar's upper band, 1 iff it is below the lower band and not above the upper one |
| Indicators.AnalyzeVolume | scripts/indicators.py:157-166 | neutral below 20 bars; score in {1, 3, 5} |
| Indicators.VolumeSignals | scripts/indicators.py:159-163 | from 20 bars on, 5 iff the close rose on volume above its 20-bar mean, 1 iff it fell on such volume |
| Indicators.VolumeSumLowerBound | scripts/indicators.py:157 | the 20-bar volume sum is at least 20 times a lower bound of its volumes |
| Indicators.HighVolumeNeedsQuieterBar | scripts/indicators.py:157-162 | a last volume above its 20-bar mean implies a quieter bar in that window |
| Indicators.VolumeNeutralCases | scripts/indicators.py:159-165 | a window of equal volumes scores neutral whatever the price move |
| Indicators.TotalScore | scripts/analyze_all_stocks.py:86 | five times the total is the sum of the five analyzer scores |
| Indicators.ScoreHistory | scripts/analyze_all_stocks.py:79-83 | EMA and RSI scores in 1–5; ADX, Donchian and volume scores in {1, 3, 5} |
| Indicators.CompositeInRange | scripts/analyze_all_stocks.py:86 | every total score lies in [1, 5] |
| Descriptions.Strip | scripts/analyze_all_stocks.py:55 | the result is the input without its leading and trailing whitespace, and neither starts nor ends with whitespace |
| Descriptions.StripIdempotent | scripts/analyze_all_stocks.py:55 | stripping twice is stripping once |
| Descriptions.SplitFirstTab | scripts/analyze_all_stocks.py:55 | no split iff there is no tab (the unpacking raises); otherwise line = symbol + tab + description with a tab-free symbol |
| Descriptions.SplitFirstTabRoundTrip | scripts/analyze_all_stocks.py:55 | splitting a tab-free symbol, a tab and a description gives back the two parts |
| Descriptions.ParseLineIff | scripts/analyze_all_stocks.py:55 | a line parses iff its stripped text holds a tab, into the parts around the first tab |
| Descriptions.ParseLine | scripts/analyze_all_stocks.py:55 | definition: strip, then split at the first tab; Descriptions.ParseLineIff states its result |
| Descriptions.Body | scripts/analyze_all_stocks.py:53 | the lines after the header, in order |
| Descriptions.DescriptionsFailIff | scripts/analyze_all_stocks.py:54-56 | the dictionary fails to load iff some line does not split |
| Descriptions.DescriptionsStayFailed | scripts/analyze_all_stocks.py:54-56 | once a line fails, the whole file fails |
| Descriptions.LaterLineWins | scripts/analyze_all_stocks.py:55-56 | a symbol maps to the description of the last line naming it |
| Descriptions.DescriptionKeysFromLines | scripts/analyze_all_stocks.py:54-56 | every symbol of the dictionary comes from some line |
| Descriptions.DescriptionsOf | scripts/analyze_all_stocks.py:54-56 | definition: the dictionary after the first k lines; Descriptions.DescriptionsFailIff, Descriptions.LaterLineWins and Descriptions.DescriptionKeysFromLines state its properties |
| Descriptions.DescriptionFile | scripts/analyze_all_stocks.py:51-57 | definition: that dictionary over the lines after the header; Descriptions.LoadStockDescriptions is proved to compute it |
| Descriptions.LoadStockDescriptions | scripts/analyze_all_stocks.py:41-57 | the loop builds exactly the dictionary of the file, or fails as it does |
| Descriptions.DescriptionFor | scripts/analyze_all_stocks.py:89 | the listed description, else "No description available" |
| Descriptions.EntriesOf | scripts/complement_with_yahoo_data.py:54-57 | one entry per line in file order, duplicates kept; none iff some line does not split |
| Descriptions.EntryFile | scripts/complement_with_yahoo_data.py:54-57 | definition: the entry list over the lines after the header; Descriptions.LoadStockDescriptionList is proved to compute it |
| Descriptions.LoadStockDescriptionList | scripts/complement_with_yahoo_data.py:42-58 | the loop builds exactly that list, or fails as it does |
| Ranking.InsertBy | scripts/analyze_all_stocks.py:157 | inserting into a list ordered best first keeps it ordered and adds exactly that element |
| Ranking.SortBy | scripts/analyze_all_stocks.py:157 | ordered by descending key, and a permutation of the input |
| Ranking.SortedUnique | scripts/analyze_all_stocks.py:157 | with distinct keys any two such orderings are equal: only ties are left open |
| Analysis.Processed | scripts/analyze_all_stocks.py:60-105 | definition: the record `process_stock_file` appends, or none; Analysis.ProcessedCount and Analysis.ProcessedRecord state its properties |
| Analysis.ProcessedUpTo | scripts/analyze_all_stock_past.py:75-125 | definition: the same on the rows up to the day; Analysis.ProcessedUpToSkips and Analysis.ProcessedUpToIgnoresLaterRows state its properties |
| Analysis.ProcessedCount | scripts/analyze_all_stocks.py:72-76 | one record for a scorable file (readable, ≥ 50 rows, analyzer columns present), none otherwise |
| Analysis.ProcessedRecord | scripts/analyze_all_stocks.py:79-103 | the record holds the symbol, the five scores, their mean in [1, 5], the description or the default, and the lookup link ending in the symbol |
| Analysis.ProcessedUpToSkips | scripts/analyze_all_stock_past.py:92-96 | nothing is appended when fewer than 50 rows are dated on or before the selected day |
| Analysis.ProcessedUpToIgnoresLaterRows | scripts/analyze_all_stock_past.py:89-96 | rows after the selected day cannot change what is appended |
| Analysis.ResultList.constructor | scripts/analyze_all_stocks.py:136 | the results list starts empty |
| Analysis.ResultList.ProcessStockFile | scripts/analyze_all_stocks.py:60-105 | appends exactly the file's record, or nothing when the file is skipped or an analyzer raises |
| Analysis.ResultList.ProcessStockFileUpTo | scripts/analyze_all_stock_past.py:75-125 | the same on the rows up to the selected day |
| Analysis.Scan | scripts/analyze_all_stocks.py:142-150 | definition: the records after the first k listing entries; Analysis.ScanBacked and Analysis.ScanLength state its properties, Analysis.ScanFolder computes it |
| Analysis.ScanUpTo | scripts/analyze_all_stock_past.py:169-177 | definition: the same for the selected day; Analysis.ScanUpToIsScanOfFolderUpTo relates it to Analysis.Scan |
| Analysis.ScanBacked | scripts/analyze_all_stocks.py:142-150 | every scanned record was scored from a scorable `.csv` file of the listing, under the symbol its name gives, with a total in [1, 5] |
| Analysis.ScanLength | scripts/analyze_all_stocks.py:142-150 | at most one record per `.csv` entry |
| Analysis.ScanUpToIsScanOfFolderUpTo | scripts/analyze_all_stock_past.py:169-177 | the selected-day scan is the plain scan of the folder cut down to that day |
| Analysis.ScanFolder | scripts/analyze_all_stocks.py:142-150 | the loop appends the scan's records in listing order |
| Analysis.ScanFolderUpTo | scripts/analyze_all_stock_past.py:169-177 | the same for the selected-day variant |
| Analysis.AnalyzeAllStocks | scripts/analyze_all_stocks.py:125-160 | no output iff the descriptions fail or nothing was scored; otherwise the scanned records, best total first |
| Analysis.AnalyzeAllStocksUpTo | scripts/analyze_all_stock_past.py:146-187 | no output for an unparsable date, failed descriptions or an empty scan; otherwise the scanned records, best total first |
| MarketCapFilter.MarketCapOf | scripts/analyze_all_stocks_with_market_cap_filter.py:98 | unreadable without a `Symbol` column; no cap for an unlisted symbol; else the first listed row's cap, provided the `Market Cap` column exists |
| MarketCapFilter.AboveCapThreshold | scripts/analyze_all_stocks_with_market_cap_filter.py:99 | flagged iff the cap is present, non-zero and at least the threshold |
| MarketCapFilter.NonPositiveThreshold | scripts/analyze_all_stocks_with_market_cap_filter.py:99 | with a threshold ≤ 0 every positive cap passes, but a zero or missing cap never does |
| MarketCapFilter.CapProcessed | scripts/analyze_all_stocks_with_market_cap_filter.py:77-117 | one record iff the file is scorable and the cap lookup does not raise; it carries the plain record, the cap and its flag |
| MarketCapFilter.CapResultList.constructor | scripts/analyze_all_stocks_with_market_cap_filter.py:210 | the results list starts empty |
| MarketCapFilter.CapResultList.ProcessStockFile | scripts/analyze_all_stocks_with_market_cap_filter.py:77-117 | appends exactly that record, or nothing |
| MarketCapFilter.CapScan | scripts/analyze_all_stocks_with_market_cap_filter.py:217-226 | definition: the records after the first k listing entries; MarketCapFilter.CapScanKeepsRecords relates it to Analysis.Scan, MarketCapFilter.ScanFolder computes it |
| MarketCapFilter.CapScanKeepsRecords | scripts/analyze_all_stocks_with_market_cap_filter.py:217-226 | with both fundamentals columns present, the records are those of the plain scan, in the same order |
| MarketCapFilter.Flagged | scripts/analyze_all_stocks_with_market_cap_filter.py:238 | only flagged records, never more than the input |
| MarketCapFilter.FlaggedMembers | scripts/analyze_all_stocks_with_market_cap_filter.py:238 | a record survives the filter iff it is in the input and flagged |
| MarketCapFilter.FlaggedSorted | scripts/analyze_all_stocks_with_market_cap_filter.py:232-238 | filtering a sorted list keeps it sorted |
| MarketCapFilter.TopStocks | scripts/analyze_all_stocks_with_market_cap_filter.py:238 | definition: `.head(10)` of the flagged records; MarketCapFilter.TopStocksProperties and MarketCapFilter.TopStocksAreBest state its properties |
| MarketCapFilter.TopStocksProperties | scripts/analyze_all_stocks_with_market_cap_filter.py:238 | at most ten records, each flagged and from the sorted list, best first |
| MarketCapFilter.TopStocksAreBest | scripts/analyze_all_stocks_with_market_cap_filter.py:238 | a flagged record left out means ten were kept, each at least as good |
| MarketCapFilter.ScanFolder | scripts/analyze_all_stocks_with_market_cap_filter.py:217-226 | the loop appends the scan's records in listing order |
| MarketCapFilter.AnalyzeWithCapFilter | scripts/analyze_all_stocks_with_market_cap_filter.py:198-238 | no output iff the descriptions fail or nothing was scored; otherwise the records best first and the top ten flagged ones |
| ScoreTable.MissingFrom | scripts/backtesting_stock_analysis.py:66 | exactly the required columns the file lacks |
| ScoreTable.MissingInOrder | scripts/backtesting_stock_analysis.py:66 | the missing columns in the order they are required |
| ScoreTable.GetStockData | scripts/backtesting_stock_analysis.py:60-74 | not found iff no file; loaded iff the file has Open, High, Low and Close; otherwise the non-empty list of missing columns |
| ScoreTable.Frame | scripts/backtesting_stock_analysis.py:60-74 | definition: the loaded rows, else the empty frame; ScoreTable.FrameEmptyIff states when it is empty |
| ScoreTable.FrameEmptyIff | scripts/backtesting_stock_analysis.py:60-74 | the frame is empty iff the file is missing, lacks a required column or has no rows |
| ScoreTable.RowAt | scripts/backtesting_stock_analysis.py:105-123 | definition: the row of one in-window day, scored on the window's rows up to that day; ScoreTable.RowAtDated and ScoreTable.RowAtIgnoresLaterBars state its properties |
| ScoreTable.RowsBefore | scripts/backtesting_stock_analysis.py:105-123 | definition: the rows of the first k in-window days; ScoreTable.RowsBeforeBacked, ScoreTable.RowsBeforeScored and ScoreTable.RowsBeforeInDateOrder state its properties |
| ScoreTable.FileRows | scripts/backtesting_stock_analysis.py:90-125 | definition: the rows one directory entry contributes; ScoreTable.FileRowsCases states its cases |
| ScoreTable.ScoreTableOf | scripts/backtesting_stock_analysis.py:77-127 | definition: the table for a listing; ScoreTable.TableRowsBacked and ScoreTable.TableRowsScored state its properties, ScoreTable.LoadAndScore computes it |
| ScoreTable.FileRowsCases | scripts/backtesting_stock_analysis.py:90-102 | no rows for a non-`.csv` entry, an unloadable file (the pandas 1.x empty mask, see "## Left out") or fewer than 50 in-window bars; otherwise the per-day rows |
| ScoreTable.ScoreFile | scripts/backtesting_stock_analysis.py:94-125 | the per-file body yields exactly that file's rows |
| ScoreTable.ScoreWindow | scripts/backtesting_stock_analysis.py:105-125 | the per-day loop yields exactly the rows of the window |
| ScoreTable.RowsStep | scripts/backtesting_stock_analysis.py:105-123 | a day adds one row when its history has ≥ 50 bars and the volume column exists, else none |
| ScoreTable.LoadAndScore | scripts/backtesting_stock_analysis.py:77-127 | the whole loop yields exactly the score table of the listing |
| ScoreTable.RowsBeforeBacked | scripts/backtesting_stock_analysis.py:98-123 | every row of a file names its symbol and is dated on an in-window bar with ≥ 50 bars of history, with a score in [1, 5] |
| ScoreTable.TableRowsBacked | scripts/backtesting_stock_analysis.py:77-127 | every row of the table is so backed |
| ScoreTable.RowAtIgnoresLaterBars | scripts/backtesting_stock_analysis.py:105-123 | bars dated after a day, added after the window, leave that day's row unchanged |
| ScoreTable.RowsBeforeScored | scripts/backtesting_stock_analysis.py:105-123 | each row of a file names its symbol and scores the window's rows up to its own date |
| ScoreTable.TableRowsScored | scripts/backtesting_stock_analysis.py:105-123 | every row of the table scores the in-window history of its symbol up to the row's date |
| ScoreTable.ScoreIgnoresLaterBars | scripts/backtesting_stock_analysis.py:105-123 | no look-ahead: files that agree on the bars up to a row's date give that row the same score, whatever their later bars |
| ScoreTable.RowAtDated | scripts/backtesting_stock_analysis.py:119-123 | a day contributes at most one row, dated that day |
| ScoreTable.RowsBeforeBounded | scripts/backtesting_stock_analysis.py:105-123 | the rows of the first k days are dated no later than the k-th day |
| ScoreTable.RowsBeforeInDateOrder | scripts/backtesting_stock_analysis.py:105-123 | a chronological file yields rows in strictly increasing date order |
| ScoreTable.GetBestStock | scripts/backtesting_stock_analysis.py:141-145 | none iff no row for the day; otherwise a row of that day whose score no row of the day beats |
| Backtest.BarOn | scripts/backtesting_stock_analysis.py:184 | a bar of that date, none iff there is none; Backtest.BarOnIsFirst states it is the first such bar |
| Backtest.BarOnIsFirst | scripts/backtesting_stock_analysis.py:184 | `.values[0]`: when bar i is dated that day and no earlier bar is, the bar found is bar i |
| Backtest.FirstBreach | scripts/backtesting_stock_analysis.py:190-191 | the first bar in file order within the period whose low reaches the stop price, none iff none does |
| Backtest.EnterAt | scripts/backtesting_stock_analysis.py:183-186 | none iff no bar that day; else the symbol is held, bought at a positive open that day, with shares worth exactly the capital |
| Backtest.Held | scripts/backtesting_stock_analysis.py:183-186 | an already held symbol keeps the position; otherwise a new position worth the capital |
| Backtest.HeldMissing | scripts/backtesting_stock_analysis.py:184 | no bar on the day for a new symbol means no position |
| Backtest.HeldEnters | scripts/backtesting_stock_analysis.py:184-186 | a bar on the day for a new symbol means all capital at that bar's open |
| Backtest.Reevaluation | scripts/backtesting_stock_analysis.py:210-219 | definition: marking to market at the open of the end date, or the IndexError; Backtest.ReevaluationLogs states its result |
| Backtest.NoCandidate | scripts/backtesting_stock_analysis.py:171-181 | definition: no row for the day, a falsy symbol or an empty frame; Backtest.PeriodIdleIff states that it decides idling |
| Backtest.Period | scripts/backtesting_stock_analysis.py:170-222 | a period that does not crash advances the date by the period; if it trades, it logs one period |
| Backtest.Follow | scripts/backtesting_stock_analysis.py:177-222 | the same for a period with a candidate |
| Backtest.Hold | scripts/backtesting_stock_analysis.py:189-219 | the same from the held position to the period's end |
| Backtest.StopOut | scripts/backtesting_stock_analysis.py:191-219 | the same after a breach inside the period |
| Backtest.Simulate | scripts/backtesting_stock_analysis.py:170-222 | definition: the loop from a state to its end; Backtest.SimulateOrdered, Backtest.SimulatePriced, Backtest.SimulateOnCadence and Backtest.SimulateAtOpen state its properties |
| Backtest.Start | scripts/backtesting_stock_analysis.py:163-169 | definition: all capital in cash at the earliest scored date |
| Backtest.RunBacktest | scripts/backtesting_stock_analysis.py:148-225 | definition: the empty-table crash, else the loop from the start to the latest scored date; Backtest.BacktestLog states its properties, Backtest.RunBacktestLoop computes it |
| Backtest.MinDate | scripts/backtesting_stock_analysis.py:166 | the earliest date of the table |
| Backtest.MaxDate | scripts/backtesting_stock_analysis.py:170 | the latest date of the table |
| Backtest.PeriodIdles | scripts/backtesting_stock_analysis.py:171-181 | without a candidate the period only advances the date |
| Backtest.PeriodFollows | scripts/backtesting_stock_analysis.py:171-183 | with one, the period follows the best symbol of the day |
| Backtest.FollowFails | scripts/backtesting_stock_analysis.py:184 | no open price to buy at crashes the run |
| Backtest.FollowHolds | scripts/backtesting_stock_analysis.py:183-190 | otherwise the period holds the position from that day |
| Backtest.PeriodIdleIff | scripts/backtesting_stock_analysis.py:171-181 | a period writes nothing and advances iff there is no candidate |
| Backtest.FollowNeverIdles | scripts/backtesting_stock_analysis.py:183-219 | a period with a candidate trades or crashes |
| Backtest.HoldBreach | scripts/backtesting_stock_analysis.py:190-208 | the first breach in the period triggers the stop-loss |
| Backtest.HoldClear | scripts/backtesting_stock_analysis.py:190-219 | with no breach the period only marks to market |
| Backtest.FirstBreachIsFirst | scripts/backtesting_stock_analysis.py:190-191 | a breach with none before it is the one found |
| Backtest.ReevaluationLogs | scripts/backtesting_stock_analysis.py:210-219 | one Reevaluate entry at the period end, for the held symbol and shares, priced at the open of the bar of that day, worth shares × price, which becomes the capital |
| Backtest.StopOutLogs | scripts/backtesting_stock_analysis.py:191-219 | the exit is logged at the stop price and is worth (1 − stop loss) of the holding at its entry price; the breach day has a best symbol, which becomes the holding, bought at the open of its bar that day with everything the exit brought; the period closes at that symbol's open on its last day |
| Backtest.HeldAtOpen | scripts/backtesting_stock_analysis.py:183-186 | a symbol bought at the start of a period has a bar that day and is bought at its open |
| Backtest.HoldEntry | scripts/backtesting_stock_analysis.py:189-219 | holding a position to the period's end: Reevaluate entries at the opens; without a breach the shares and entry price are kept; after a breach the exit is worth (1 − stop loss) of the position at its entry price and all of it is put into the best symbol of the breach day at that day's open |
| Backtest.FollowKept | scripts/backtesting_stock_analysis.py:183-219 | a period on the symbol already held holds the position itself, as HoldEntry states |
| Backtest.FollowSwitched | scripts/backtesting_stock_analysis.py:183-219 | a period on a new symbol buys it with all the capital at the open of its bar that day, then holds that position, as HoldEntry states |
| Backtest.PeriodEntry | scripts/backtesting_stock_analysis.py:170-222 | a trading pass has a candidate, holds it from the day's open (or keeps it when already held) and yields what holding it yields |
| Backtest.PeriodEntryValue | scripts/backtesting_stock_analysis.py:183-208 | after a trading pass the position at its entry price is worth the starting capital on a switch, is the unchanged position when already held, and after a stop-loss is worth the exit, which is (1 − stop loss) of what was held |
| Backtest.RunPeriod | scripts/backtesting_stock_analysis.py:171-222 | the loop body computes exactly one period |
| Backtest.FollowPeriod | scripts/backtesting_stock_analysis.py:183-222 | the body after a candidate is found computes exactly that period |
| Backtest.Monitor | scripts/backtesting_stock_analysis.py:189-219 | the scan and the mark-to-market compute exactly the holding period |
| Backtest.SimulateAdvance | scripts/backtesting_stock_analysis.py:170-222 | one pass of the loop crashes, idles or prepends its entries to the rest of the run |
| Backtest.RunBacktestLoop | scripts/backtesting_stock_analysis.py:148-225 | the loop computes exactly the run from the earliest to the latest scored date |
| Backtest.SimulateOrdered | scripts/backtesting_stock_analysis.py:170-222 | a completed run logs in date order, from its first date on |
| Backtest.SimulatePriced | scripts/backtesting_stock_analysis.py:192-219 | every entry of a completed run is worth its shares times its price |
| Backtest.SimulateOnCadence | scripts/backtesting_stock_analysis.py:189-222 | every Reevaluate entry is a whole number of periods after the start |
| Backtest.SimulateAtOpen | scripts/backtesting_stock_analysis.py:210-219 | every Reevaluate entry of a completed run is priced at the open of its symbol's bar on its date |
| Backtest.BacktestLog | scripts/backtesting_stock_analysis.py:148-225 | a completed backtest's log is ordered from the earliest scored date, priced, on cadence, and every Reevaluate entry is at the open of its symbol that day |
| PriceVariation.CloseOnOrBefore | scripts/plot_stock_analysis.py:69-70 | definition: the close of the last row on or before the cutoff, or none; PriceVariation.CloseOnOrBeforeIsLastOfUpTo states it |
| PriceVariation.LastOnOrBefore | scripts/plot_stock_analysis.py:69-70 | the last bar dated on or before the cutoff, none iff there is none |
| PriceVariation.CloseOnOrBeforeIsLastOfUpTo | scripts/plot_stock_analysis.py:69-70 | no past price iff the filtered frame is empty, else the close of its last row |
| PriceVariation.EarlierCutoff | scripts/plot_stock_analysis.py:65-70 | a past price at an earlier cutoff implies one at a later cutoff |
| PriceVariation.Change | scripts/plot_stock_analysis.py:73-74 | none iff the past price is missing or zero; otherwise change × past = (current − past) × 100 |
| PriceVariation.ChangeSign | scripts/plot_stock_analysis.py:73-74 | against a positive past price the change is zero, positive or negative as the price stayed, rose or fell |
| PriceVariation.CalculatePriceVariation | scripts/plot_stock_analysis.py:63-76 | none iff no data; the last close and its changes against the closes 14 and 42 days before the last date |
| PriceVariation.SixWeekPriceImpliesTwoWeekPrice | scripts/plot_stock_analysis.py:65-70 | a six-week price implies a two-week price |
| Complement.Get | scripts/complement_with_yahoo_data.py:75-85 | a value iff the key is in `info`, and then that value |
| Complement.Fetched | scripts/complement_with_yahoo_data.py:71-86 | definition: the eleven fields read from `info`; Complement.FetchYahooData states its shape and values |
| Complement.Fallback | scripts/complement_with_yahoo_data.py:87-101 | definition: the same eleven fields, all None; Complement.FetchYahooData states it |
| Complement.FetchYahooData | scripts/complement_with_yahoo_data.py:61-101 | the same eleven columns in order on both paths; each read from its own key, or all empty on failure |
| Complement.Merged | scripts/complement_with_yahoo_data.py:127-131 | definition: Symbol and Description, then the fetched fields; Complement.MergedShape states its shape |
| Complement.MergedShape | scripts/complement_with_yahoo_data.py:127-131 | a merged record has the thirteen output columns, the entry's symbol and description first, then the fetched fields unchanged |
| Complement.MergedRows | scripts/complement_with_yahoo_data.py:124-131 | one record per entry, in entry order |
| Complement.MergedRowsColumns | scripts/complement_with_yahoo_data.py:124-136 | every record has the output columns |
| Complement.ComplementWithYahooData | scripts/complement_with_yahoo_data.py:104-139 | no output iff the ticker file fails to load; otherwise one merged record per entry, in order, each with the thirteen columns |
| FirstSymbol.GetFirstStockSymbol | scripts/get_stocks_from_tickers.py:96-101 | none iff there is no line after the header; otherwise the tab-free start of that line, up to its first tab or its end |
| FirstSymbol.FirstSymbolOfTickerFile | scripts/get_stocks_from_tickers.py:98-100 | a first data line "symbol⇥description" yields the symbol |
| FirstSymbol.AgreesWithDescriptionParser | scripts/get_stocks_from_tickers.py:100 | on a blank-free line with a tab, this symbol is the one the description reader takes |
| FirstSymbol.JoinPath | scripts/get_stocks_from_tickers.py:148 | an absolute name replaces the folder; otherwise the folder is a prefix; the result ends with the name |
| FirstSymbol.OutputPath | scripts/get_stocks_from_tickers.py:148 | definition: `os.path.join(folder, symbol + '.csv')`; FirstSymbol.OutputPathNamesSymbol states its properties |
| FirstSymbol.OutputPathNamesSymbol | scripts/get_stocks_from_tickers.py:148 | the saved file lies in the output folder, is `folder/symbol.csv`, and reads back as the symbol |

## Left out

- The `ta` indicator computations (EMA, RSI, ADX/±DI, Donchian bands) are inputs to the model. Their warm-up NaN values and the comparisons against NaN are not modelled.
- Floating point is modelled as exact reals, and NaN values are not modelled. Overflow, rounding and NaN truthiness in `if market_cap` and `if price_2w` are not captured. An empty market-cap cell is `None`.
- Backtest.Period: an open price of zero would make numpy divide to infinity. The model requires every open price in the folder to be positive instead.
- File and network I/O are left out. Files are given as maps from name to contents, ticker files as their lines, and directory listings as sequences. The `Date` index is assumed parseable.
- `pd.read_csv` failures are modelled only as a missing file.
- The Yahoo Finance calls (`yf.Ticker(...).info`, `yf.download`) are a lookup parameter or are left out. `download_stock_data` in two scripts is left out.
- Plotting is left out: `plot_stock_analysis`, `plot_top_stocks` and the module-level code of `scripts/plot_stock_analysis.py`. They draw charts and compute nothing the rest reads, apart from the price variation, which is modelled.
- Argument parsing, `tqdm` progress bars, `print` messages, `os.makedirs`, today's date and the CSV writing are left out.
- Analysis.AnalyzeAllStocksUpTo: the date is an already parsed day number or `None` for a string `strptime` rejects.
- Calendar dates are day numbers, so `timedelta(days=n)` and `timedelta(weeks=n)` are additions of n and 7n days.
- Ranking.SortBy: pandas' descending sort may order equal totals either way. The model produces one such order, and Ranking.SortedUnique shows ties are the only freedom.
- ScoreTable.GetBestStock: the same applies to which of several best-scored rows of a day is picked.
- Backtest.StopOut: `get_stock_data(None, ...)` after a breach day with no score row is modelled as a crash. The script would look for a file literally named `None.csv`.
- Backtest.FirstBreach and Backtest.BarOn: the label slice `loc[current_date:end]` and the date masks are modelled as date tests on the rows in file order. This agrees with pandas on chronological files, which is how the data files are written.
- ScoreTable.FileRows, ScoreTable.FileRowsCases and ScoreTable.ScoreFile: a listed `.csv` file that is missing or lacks a required column contributes no rows. That is pandas 1.x behaviour. There the empty frame returned at scripts/backtesting_stock_analysis.py:70 and 73 has an object index, and the mask on line 98 is empty. Under pandas 2 that index is an integer `RangeIndex`, and comparing it with the string start date raises `TypeError` outside the `try`. That ends the whole load, and the model does not capture it. The repository does not pin a pandas version.
- ScoreTable.RowAt, ScoreTable.ScoreFile, ScoreTable.ScoreWindow, ScoreTable.RowsStep and ScoreTable.LoadAndScore: each day's history, the label slice `loc[:date]`, is modelled as the rows of the window dated up to that day, in file order. This also agrees with pandas only on chronological files. The test-range filter before it is a boolean mask and is modelled exactly.
- Market.SymbolFileRoundTrip: proved only for dot-free symbols, though it also holds for many symbols with a dot.
- `scripts/update_stock_data.py` is not part of this model.
