# Stock monitoring and bookkeeping core, in Dafny

This project models the stateful, rule-bearing core of an A-share stock-analysis
application. The application's outer layers fetch market data, prompt language
models and render pages. Beneath them sit the stores and rules that this project
models:

- **Low-price-bull strategy store** (`LowPriceBull`). Positions are held or
  removed, unique per (code, status). Holding days are recomputed daily. Sell
  alerts are deduplicated while unsent, marked sent, and purged once sent and old.
- **Entry / take-profit / stop-loss monitor database** (`MonitorDb`). This covers
  monitored stocks, the price history a price update appends, and notifications
  with their cool-down query. It also covers removal across three tables and the
  batch upsert of monitors with its added / updated / failed counters.
- **Trading-session classifier and decision sanitiser** (`SmartMonitor`). The seven
  A-share sessions are classified from (weekday, time of day). `_parse_decision`
  turns a model reply into a decision, falling back to a conservative HOLD.
- **Symbol and code normalisation** (`StockData`, `DataSource`). This covers A-share
  and Hong Kong recognition, Hong Kong zero-padding, exchange prefixes and Tushare
  suffixes, and date and adjustment normalisation. It also covers the provider
  fallback chain Sina, Tencent, EastMoney, Tushare: the first usable reply wins.
- **Portfolio bookkeeping** (`PortfolioDb`, `PortfolioManager`). This covers the
  unique-code stock table and its allowed-column update. It also covers the
  analysis history with rating-change extraction, the parsing of batch results
  into stored records, and the per-code accounting of batch runs.
- **Dragon-tiger list** (`LonghubangDb`, `LonghubangEngine`). Trading records are
  upserted on (date, code, trader, branch). This part also covers the filtered
  and grouped queries, the report cascade delete, tracking updates, the date-range
  label, the ranked recommendations, the final report and the run's
  early-exit / success flow.

## How the model is built

- **SQLite tables become classes.** Each table is a `seq` field of a class. Each
  method states the whole new state, usually through a specification function
  over the old rows. The lemmas beside it state what the operation promises:
  keys stay unique, only the named row changes, counters add up.
- **Clocks become integer parameters.** `CURRENT_TIMESTAMP` and `datetime.now()`
  are an injected integer instant, in seconds.
- **Foreign code becomes function parameters.** `json.loads`, `float()` on text,
  `str()` of a number, the date parser and the market-data providers are all
  passed in as functions.
- **Python values become a `Value` datatype.** `Common.Value` models Python values
  with their truthiness (`Common.Truthy`) and whether the sqlite3 driver can bind
  them (`Common.Bindable`).
- **Raised exceptions become `Reply` results.** An exception the source raises to
  its caller is a `Raised` reply, or a `None` where the source returns nothing on
  error.
- **SQLite behaviour follows SQLite itself:**
  - NULLs are distinct under UNIQUE;
  - `INSERT OR REPLACE` deletes every conflicting row, then inserts;
  - a negative `LIMIT` means no limit;
  - `SUM` skips NULLs and is NULL over none;
  - `GROUP BY` forms one group for NULL;
  - foreign keys are not enforced;
  - a negative time window makes the date modifier invalid, so it selects nothing.

## Model

| member | source | states |
|---|---|---|
| LowPriceBull.LowPriceBullMonitor.constructor | low_price_bull_monitor.py:36-78 | a fresh database has no positions and no alerts |
| LowPriceBull.LowPriceBullMonitor.AddStock | low_price_bull_monitor.py:80-127 | refused (with its message, table unchanged) exactly when the code already has a holding row; otherwise exactly one holding row with 0 holding days and buy date defaulting to today is appended |
| LowPriceBull.LowPriceBullMonitor.RemoveStock | low_price_bull_monitor.py:129-177 | refused without change exactly when the code has no holding row; otherwise the table becomes the stale removed rows deleted and the holding row flipped |
| LowPriceBull.RemoveOutcome | low_price_bull_monitor.py:145-167 | after a removal the code has no holding row and exactly one removed row (the former holding row, with removal time and reason), (code, status) stays unique and every other code's rows are untouched |
| LowPriceBull.RemoveKeepsIds | low_price_bull_monitor.py:155-167 | a removal keeps the primary key unique and below the next id |
| LowPriceBull.LowPriceBullMonitor.MonitoredStocks | low_price_bull_monitor.py:179-199 | exactly the holding rows (as a multiset), most recently added first |
| LowPriceBull.LowPriceBullMonitor.UpdateHoldingDays | low_price_bull_monitor.py:201-232 | when every buy date parses, each holding row gets today minus its buy date; otherwise nothing changes |
| LowPriceBull.HoldingDaysOutcome | low_price_bull_monitor.py:208-224 | holding rows get the whole days since buying (negative for a future buy date), removed rows and every other column are unchanged, the key stays unique |
| LowPriceBull.HoldingDaysKeepIds | low_price_bull_monitor.py:208-224 | the recomputation keeps the primary key unique and below the next id |
| LowPriceBull.LowPriceBullMonitor.AddSellAlert | low_price_bull_monitor.py:234-285 | refused without change exactly when an unsent alert of the same code and type exists; otherwise one unsent alert is appended; either way one such alert is pending afterwards |
| LowPriceBull.AddAlertOutcome | low_price_bull_monitor.py:259-275 | appending an alert with no pending twin keeps at most one pending alert per (code, type) |
| LowPriceBull.LowPriceBullMonitor.PendingAlerts | low_price_bull_monitor.py:287-307 | exactly the unsent alerts (as a multiset), newest first |
| LowPriceBull.LowPriceBullMonitor.MarkAlertSent | low_price_bull_monitor.py:309-325 | the alerts become the old alerts with that id marked sent |
| LowPriceBull.MarkSentOutcome | low_price_bull_monitor.py:315-319 | only the alert with that id changes, and only its sent flag; at most one pending alert per (code, type) is kept |
| LowPriceBull.LowPriceBullMonitor.HistoryAlerts | low_price_bull_monitor.py:327-350 | exactly `limit` alerts when there are more (all of them for a negative or large limit), newest first, and no alert left out is newer than one returned; each alert appears at most as often as in the table, and all of them, as a permutation, when the limit does not cut |
| LowPriceBull.LowPriceBullMonitor.ClearOldAlerts | low_price_bull_monitor.py:352-377 | the alerts become those not both sent and dated before the cutoff day |
| LowPriceBull.PurgeOutcome | low_price_bull_monitor.py:363-368 | an alert is deleted exactly when it is sent and older than the cutoff: unsent alerts always survive, nothing is added |
| LowPriceBull.PendingDistinctFilter | low_price_bull_monitor.py:363-368 | deleting alerts keeps at most one pending alert per (code, type) |
| MonitorDb.StockMonitorDatabase.constructor | monitor_db.py:18-77 | a fresh database has empty stock, price history and notification tables |
| MonitorDb.StockMonitorDatabase.AddMonitoredStock | monitor_db.py:79-104 | succeeds exactly when the NOT NULL columns are set and every value binds; then one row under a fresh id is appended, otherwise nothing changes |
| MonitorDb.StockMonitorDatabase.UpdateStockPrice | monitor_db.py:151-170 | the stock's price and check time are set and exactly one price-history row is appended |
| MonitorDb.StockMonitorDatabase.UpdateLastChecked | monitor_db.py:172-184 | only the check time of that stock changes; no price-history row is added |
| MonitorDb.PriceUpdatesTouchOneRow | monitor_db.py:151-181 | both updates keep every other row and every other column of the target row, and keep ids unique |
| MonitorDb.HasRecentNotification | monitor_db.py:186-200 | true iff the window is not negative and some notification of that stock and type, sent or not, was raised after now minus the window |
| MonitorDb.StockMonitorDatabase.AddNotification | monitor_db.py:202-213 | appends exactly one unsent notification, with no duplicate check |
| MonitorDb.PendingNotifications | monitor_db.py:215-241 | exactly the unsent notifications whose stock still exists, each joined with its stock, oldest first |
| MonitorDb.PendingViewsComplete | monitor_db.py:215-241 | the joined views are sound and complete for the unsent notifications of existing stocks |
| MonitorDb.ViewsSorted | monitor_db.py:220-254 | joining keeps the order by trigger time |
| MonitorDb.RecentNotifications | monitor_db.py:243-270 | exactly `limit` notifications of existing stocks when there are more (all for a negative limit), joined, newest first, and none left out is newer than one returned; each joined notification appears at most as often as in the join, and all of them when the limit does not cut |
| MonitorDb.RecentViews | monitor_db.py:243-270 | the sorted, limited notifications join to views of the same length, newest first, none left out being newer |
| MonitorDb.RecentViewsNewest | monitor_db.py:243-270 | a joined notification left out of the views is no newer than any view kept |
| MonitorDb.StockMonitorDatabase.MarkNotificationSent | monitor_db.py:272-282 | the notifications become the old ones with that id marked sent |
| MonitorDb.StockMonitorDatabase.MarkAllNotificationsSent | monitor_db.py:284-294 | returns the number of unsent notifications, flips all of them and leaves none pending |
| MonitorDb.MarkSentOutcome | monitor_db.py:272-294 | marking all sent changes only the flags; marking one id changes only that notification |
| MonitorDb.StockMonitorDatabase.ClearAllNotifications | monitor_db.py:296-306 | deletes every notification and returns how many there were |
| MonitorDb.StockMonitorDatabase.RemoveMonitoredStock | monitor_db.py:308-326 | deletes the stock's price history, its notifications and its row; true iff the row existed |
| MonitorDb.RemovalOutcome | monitor_db.py:308-326 | after the three deletes nothing refers to the stock, every other row is kept, and the stock table shrinks iff the stock existed |
| MonitorDb.StockMonitorDatabase.UpdateMonitoredStock | monitor_db.py:328-373 | raises (no change) exactly when a value cannot be bound; otherwise revises the row with that id and returns whether it existed |
| MonitorDb.Revised | monitor_db.py:328-373 | the written columns take the new values, the trading-hours and quant columns only when given, and symbol, name, price and timestamps are kept |
| MonitorDb.RevisionKeepsIds | monitor_db.py:328-373 | a revision keeps every id, so the key stays unique |
| MonitorDb.StockMonitorDatabase.ToggleNotification | monitor_db.py:375-389 | sets the switch and update time of that stock only; true iff it exists |
| MonitorDb.StockById | monitor_db.py:391-431 | a row with that id exactly when one exists |
| MonitorDb.MonitorByCode | monitor_db.py:433-477 | the first row holding that symbol, or none exactly when no row holds it |
| MonitorDb.ReadEntry | monitor_db.py:501-515 | the symbol is `code`, else `symbol` |
| MonitorDb.StockMonitorDatabase.ApplyEntry | monitor_db.py:501-567 | one loop iteration changes the table as the step function says |
| MonitorDb.StockMonitorDatabase.BatchAddOrUpdate | monitor_db.py:479-570 | the final table and counters are those of the entry-by-entry step function, and added + updated + failed equals the number of entries |
| MonitorDb.StepOutcome | monitor_db.py:501-567 | an entry is incomplete iff a required field is missing or falsy; incomplete and failed entries change nothing; an added entry is a new symbol; afterwards an added or updated symbol is monitored |
| MonitorDb.SyncAccountsForEveryEntry | monitor_db.py:501-567 | every entry lands in exactly one of the three counters |
| MonitorDb.SyncSnoc | monitor_db.py:501-567 | one more entry adds its outcome to the counters and continues from the table it leaves |
| SmartMonitor.GetTradingSession | smart_monitor_deepseek.py:46-155 | the session whose wall-clock window contains the instant, can_trade equal to is_trading_time, and trading exactly in the morning, afternoon and closing sessions |
| SmartMonitor.WindowsAreExclusive | smart_monitor_deepseek.py:88-155 | exactly one session's window contains any weekday and time |
| SmartMonitor.Info | smart_monitor_deepseek.py:88-155 | the session record carries the session it describes |
| SmartMonitor.ParseDecision | smart_monitor_deepseek.py:496-545 | slicing the payload as written (an unclosed fence included), decoding it and checking the fields step by step gives the decision function's result, which always carries all seven decision fields |
| SmartMonitor.ParseDecisionTotal | smart_monitor_deepseek.py:496-545 | no reply makes parsing fail: every decision has all seven fields |
| SmartMonitor.FirstMissing | smart_monitor_deepseek.py:521-524 | none exactly when the payload holds every required field |
| SmartMonitor.Rejection | smart_monitor_deepseek.py:515-530 | no error exactly when the payload decodes to an object with action, confidence and reasoning |
| SmartMonitor.AcceptedPayloadKept | smart_monitor_deepseek.py:521-530 | a payload, extracted as written, that is accepted is kept field by field, and each missing optional field gets its default (20, 5.0, 10.0, medium) |
| SmartMonitor.RejectedPayloadHolds | smart_monitor_deepseek.py:534-545 | any reply whose payload, extracted as written, is rejected gives HOLD with confidence 0, position 0, risk high and the error in the reasoning |
| SmartMonitor.FenceEnd | smart_monitor_deepseek.py:502-505 | the close of a fenced block lies between its start and the reply's end |
| SmartMonitor.ClosedFenceRoundTrip | smart_monitor_deepseek.py:502-505 | a closed json code fence yields its text, stripped, in both extractions |
| SmartMonitor.UnclosedFenceDropsLastChar | smart_monitor_deepseek.py:502-505 | as written, a json code fence left open loses the reply's last character |
| SmartMonitor.UnclosedFenceExample | smart_monitor_deepseek.py:502-505 | as written, a json code fence opened in front of "{}" and never closed yields "{" |
| SmartMonitor.UnclosedFenceRoundTrip | smart_monitor_deepseek.py:502-505 | the corrected extraction yields the whole text of a json code fence left open |
| SmartMonitor.UnclosedFenceExampleCorrected | smart_monitor_deepseek.py:502-505 | the corrected extraction of a json code fence opened in front of "{}" yields "{}" |
| SmartMonitor.ClosedFenceDecision | smart_monitor_deepseek.py:501-545 | for a closed json code fence the program decides as the corrected extraction would |
| SmartMonitor.UnclosedFenceDecision | smart_monitor_deepseek.py:501-545 | for a json code fence left open the program decides as intended for the reply without its last character |
| SmartMonitor.UnclosedFenceExampleDecision | smart_monitor_deepseek.py:501-545 | the open fence around "{}" is decided on the payload "{", so a decoder that rejects it gives the HOLD fallback |
| SmartMonitor.Analyze | smart_monitor_deepseek.py:353-371 | fails exactly when the chat call raises; otherwise the decision parsed as written from the raw reply, with the reply, and no action validation |
| StockData.ChineseStockShapes | stock_data.py:54-64 | a symbol is an A-share iff it is six digits, or six digits followed by .SZ/.SH/.sz/.sh |
| StockData.MarketsDisjoint | stock_data.py:54-74 | no symbol is both an A-share and a Hong Kong stock |
| StockData.NormalizeDigitCode | stock_data.py:76-82 | a digit code is padded to at least five digits, keeps its value and its digits at the end, and padding again changes nothing |
| StockData.NormalizePrefixed | stock_data.py:76-82 | an HK prefix in any case is dropped before padding, the result is never shorter than five, and a sign stays first |
| StockData.DispatchedCodeIsSixDigits | stock_data.py:21-46 | every A-share lookup uses the symbol's leading six digits, which is also the financial-data code |
| StockData.DispatchKeepsForeignSymbols | stock_data.py:21-52 | Hong Kong and US symbols reach their fetchers unchanged |
| StockData.CleanSymbol | stock_data.py:638 | the symbol up to its first '.': a dot-free prefix followed by '.' or ending the symbol, the whole symbol when it has none |
| StockData.AShareLookbackDays | stock_data.py:436-448 | 1y gives 365 days, 6mo 180, 3mo 90, and the result is always one of them |
| StockData.HkLookbackDays | stock_data.py:492-501 | the A-share mapping plus 30 days for one month |
| StockData.LookbackDefaults | stock_data.py:436-501 | an unknown period gives a year in both markets; only Hong Kong knows one month |
| StockData.BoundedRatio | stock_data.py:124-134 | a ratio is kept iff the cell is set, not "-", reads as a number and lies in (0, bound] |
| StockData.PeRatio | stock_data.py:124-134 | a kept P/E lies in (0, 1000] |
| StockData.PbRatio | stock_data.py:224-238 | a kept P/B lies in (0, 100] |
| StockData.SafeConvert | stock_data.py:912-923 | None, '' and NaN give 'N/A'; non-text is unchanged; text is read after removing '%' and ',': a number when that reads, else the cleaned text itself |
| StockData.SafeConvertIgnoresMarks | stock_data.py:915-919 | a thousands separator and a trailing '%' are ignored: "a,b%" converts as "ab" does |
| DataSource.AddMarketPrefix | data_source_manager.py:37-45 | a code naming an exchange gets that exchange's prefix in front, any other code is unchanged |
| DataSource.ToTsCode | data_source_manager.py:447-472 | a six-character code gets '.' and its exchange's suffix (Shenzhen by default), anything else is unchanged |
| DataSource.FromTsCode | data_source_manager.py:474-486 | the code up to its first '.': a dot-free prefix followed by '.' or ending the code, the whole code when it has none |
| DataSource.TsCodeRoundTrip | data_source_manager.py:447-486 | converting a dot-free code to a Tushare code and back gives the code |
| DataSource.PrefixAndSuffixAgree | data_source_manager.py:39-45 | prefix and suffix name the same exchange as the first digit |
| DataSource.NormalizeStart | data_source_manager.py:52-57 | a given start date loses every '-' and keeps every other character (as a multiset), none is invented |
| DataSource.NormalizeStartIdempotent | data_source_manager.py:52-57 | normalising twice is normalising once |
| DataSource.NormalizeEnd | data_source_manager.py:52-57 | a missing or empty end date becomes today; a given one loses every '-' and keeps every other character |
| DataSource.DashedDateNormalized | data_source_manager.py:52-57 | a dashed date Y-M-D becomes YMD, as start date and as end date |
| DataSource.TushareAdjust | data_source_manager.py:212-214 | '' gives none, qfq and hfq are kept, anything else becomes qfq |
| DataSource.RequestFor | data_source_manager.py:66-221 | Sina and Tencent get the prefixed code, Tencent a start date, Tushare the Tushare code and adjustment |
| DataSource.Renamed | data_source_manager.py:72-242 | renaming keeps unrenamed columns, produces the renamed ones, and nothing else |
| DataSource.TencentVolume | data_source_manager.py:113-165 | a Tencent frame has Volume after renaming iff it had Volume, amount, volume, vol, or the Chinese volume column with the Chinese date |
| DataSource.SinaAcceptance | data_source_manager.py:72-91 | a Sina frame is used iff it is non-empty with a date and a volume column |
| DataSource.Accepted | data_source_manager.py:72-242 | a used frame is non-empty, keeps its rows, has Date for the akshare sources and Volume for Sina and Tencent |
| DataSource.Plan | data_source_manager.py:59-250 | Tushare is tried iff it is available, and at most four providers are tried |
| DataSource.FirstAccepted | data_source_manager.py:59-250 | none iff every provider fails; otherwise the first usable reply, all earlier providers having failed |
| DataSource.AkshareFirst | data_source_manager.py:59-199 | with akshare loaded, Sina, Tencent and EastMoney are tried first, in that order |
| DataSource.TushareLast | data_source_manager.py:201-250 | Tushare is the last resort, and only when available |
| DataSource.GetStockHistData | data_source_manager.py:47-250 | the result is the first usable reply along the plan for the normalised query |
| PortfolioDb.PortfolioDB.constructor | portfolio_db.py:41-102 | a fresh database has no stocks and no analyses |
| PortfolioDb.PortfolioDB.AddStock | portfolio_db.py:104-148 | raises ValueError (no change) exactly when the code exists; otherwise appends one row under a fresh id |
| PortfolioDb.StockByCode | portfolio_db.py:258-280 | the row with that code, none exactly when no row has it |
| PortfolioDb.Allowed | portfolio_db.py:165-170 | exactly the given fields among code, name, cost_price, quantity, note and auto_monitor |
| PortfolioDb.PortfolioDB.UpdateStock | portfolio_db.py:150-200 | with no allowed field returns False without change; otherwise raises (no change) or revises the row and returns whether it existed |
| PortfolioDb.Revised | portfolio_db.py:172-193 | allowed columns take the new values, the others and the creation time are kept, update time is now |
| PortfolioDb.RevisionKeepsTable | portfolio_db.py:172-193 | an update that goes through keeps ids and codes unique and the NOT NULL columns set |
| PortfolioDb.PortfolioDB.DeleteStock | portfolio_db.py:202-232 | deletes the row with that id only, true iff it existed, analyses untouched (no cascade) |
| PortfolioDb.PortfolioDB.SaveAnalysis | portfolio_db.py:358-403 | appends one record under a fresh id exactly when every value binds |
| PortfolioDb.PortfolioDB.AnalysisHistory | portfolio_db.py:405-431 | exactly `limit` records of that stock when it has more (all for a negative or large limit), newest first, and none left out is newer than one returned; no record appears more often than it is stored |
| PortfolioDb.PortfolioDB.LatestAnalysis | portfolio_db.py:448-475 | none iff the stock has no record, otherwise one of its records no older than any other |
| PortfolioDb.NewestOfHistory | portfolio_db.py:462-472 | the head of the newest-first history is the stock's newest record |
| PortfolioDb.RecentHistory | portfolio_db.py:487-495 | exactly the stock's records within the window, oldest first; none for a negative window |
| PortfolioDb.PortfolioDB.RatingChanges | portfolio_db.py:477-516 | the changes along the stock's recent history |
| PortfolioDb.WalkChanges | portfolio_db.py:500-513 | the walk over consecutive rows lists exactly the rating changes, in order |
| PortfolioDb.ChangesMeaning | portfolio_db.py:497-513 | a change is listed iff two consecutive records disagree, and there are at most n - 1 changes |
| PortfolioDb.ChangesSound | portfolio_db.py:497-513 | every listed change is one between consecutive records |
| PortfolioDb.ChangesComplete | portfolio_db.py:497-513 | every disagreement of consecutive records is listed |
| PortfolioDb.ChangesInOrder | portfolio_db.py:497-513 | along a history ordered oldest first the changes are ordered oldest first |
| PortfolioDb.ChangesStep | portfolio_db.py:497-513 | one more record appends its change, if any |
| PortfolioDb.PortfolioDB.DeleteOldAnalysis | portfolio_db.py:518-547 | deletes exactly the records older than the cutoff and returns how many; a negative window deletes nothing |
| PortfolioManager.NormalizedCode | portfolio_manager.py:51 | the stripped code, upper-cased character by character: same length as the stripped text, no lower-case letter, no white space at either end |
| PortfolioManager.NormalizedCodeIsCanonical | portfolio_manager.py:51 | normalising twice is normalising once |
| PortfolioManager.AddStock | portfolio_manager.py:32-83 | refuses an empty or already held code, with its message and no insert; when no name is given and the lookup fails, refuses with the lookup's error message if it raised and the manual-name message otherwise; otherwise stores the normalised code under a fresh id |
| PortfolioManager.BatchAnalyzeSequential | portfolio_manager.py:211-283 | the report of the sequential run |
| PortfolioManager.SequentialReport | portfolio_manager.py:234-283 | a successful report of mode "sequential"; every code lands in exactly one of results or failed; the results are the succeeding codes and the failures the rest, each in input order, each with its analysis entry; succeeded + failed = total |
| PortfolioManager.SequentialStep | portfolio_manager.py:234-283 | one more code adds its entry to the successes or to the failures |
| PortfolioManager.BatchAnalyzePortfolio | portfolio_manager.py:370-404 | no stocks gives failure; "parallel" goes to the parallel path; any other mode runs the sequential path |
| PortfolioManager.Confidence | portfolio_manager.py:441-451 | a number clamped into [0, 10] (below 0 gives 0, above 10 gives 10, in range is kept), for floats, ints, bools and text that reads; anything else becomes 5.0; NaN stays NaN |
| PortfolioManager.Clamped | portfolio_manager.py:445-449 | the clamp lands in [0, 10], keeps values in range and maps below and above to the bounds |
| PortfolioManager.ConfidenceIdempotent | portfolio_manager.py:441-451 | clamping twice is clamping once |
| PortfolioManager.FirstNumber | portfolio_manager.py:459-467 | the leftmost `\d+\.?\d*` match, starting at the first digit and as long as the pattern allows; none iff the text holds no digit |
| PortfolioManager.NumberAt | portfolio_manager.py:459-467 | the greedy match starting at a digit: it cannot be extended by a digit, nor by a '.' when it holds none |
| PortfolioManager.PriceOf | portfolio_manager.py:459-495 | a falsy field gives none; otherwise none iff its text holds no digit, else the value of the first number; prices are non-negative |
| PortfolioManager.PriceOfWholeNumber | portfolio_manager.py:459-467 | a field holding a whole number gives that number |
| PortfolioManager.PriceOfDecimal | portfolio_manager.py:459-467 | a field holding a decimal W.F gives W + F / 10^len(F) |
| PortfolioManager.EntryRange | portfolio_manager.py:469-477 | text without '-' gives (None, None); a maximum is only given with a minimum |
| PortfolioManager.EntryRangeParts | portfolio_manager.py:469-477 | the minimum is the first part read as a number, and the maximum the second once the first reads |
| PortfolioManager.EntryRangeKeepsMinimum | portfolio_manager.py:470-477 | when only the first part reads, the minimum is kept and the maximum is None |
| PortfolioManager.Summary | portfolio_manager.py:498 | advice, else summary: text of up to 500 characters kept whole, longer text cut to its first 500; None when it cannot be sliced |
| PortfolioManager.ParseItem | portfolio_manager.py:420-498 | skipped iff the code is no portfolio stock; for a portfolio stock, aborts iff final_decision or stock_info is not a dict or no summary can be made; a saved record carries that stock's id, the rating (default 持有), the clamped confidence (default 5), the current price (default 0.0), the entry range, target, take-profit and stop-loss read from the decision, and the summary of at most 500 characters |
| PortfolioManager.Planned | portfolio_manager.py:418-510 | at most one record per item, each one the driver can bind |
| PortfolioManager.PlannedSavesPortfolioStocks | portfolio_manager.py:418-430 | every record a run saves belongs to a portfolio stock |
| PortfolioManager.PlannedIgnoresOtherCodes | portfolio_manager.py:418-430 | items whose code is no portfolio stock save nothing |
| PortfolioManager.PlannedStaysNone | portfolio_manager.py:418-510 | once an item raises, the whole run raises |
| PortfolioManager.SaveDraft | portfolio_manager.py:500-507 | one record is appended exactly when it can be bound |
| PortfolioManager.SaveAnalysisResults | portfolio_manager.py:406-512 | an unsuccessful batch saves nothing; otherwise the planned records are stored under consecutive ids, or the run raises |
| PortfolioManager.SaveEach | portfolio_manager.py:422-509 | the loop stores exactly the planned records, in order, under consecutive ids |
| LonghubangDb.LonghubangDatabase.Open | longhubang_db.py:41-115 | opens a database whose tables already hold the given rows |
| LonghubangDb.TextColumn | longhubang_db.py:137-153 | raises iff the value cannot be bound; None is NULL and text is stored as given |
| LonghubangDb.FloatColumn | longhubang_db.py:137-153 | numbers are stored as reals; None, lists and dictionaries raise |
| LonghubangDb.Amount | longhubang_db.py:149-151 | the short key when truthy, else the Chinese key when truthy, else 0, read as a REAL |
| LonghubangDb.Prepare | longhubang_db.py:137-153 | written exactly when date and code bind as non-NULL values, every other text value binds and each amount converts; every column is the short key's value, else the Chinese key's, as stored; buy, sell and net default to 0 |
| LonghubangDb.Upsert | longhubang_db.py:137-153 | the new row is last, and the table grows by at most one |
| LonghubangDb.UpsertLastWriteWins | longhubang_db.py:61 | the only row with the record's key is the new one, and every non-conflicting row is kept |
| LonghubangDb.UpsertKeepsKeysUnique | longhubang_db.py:61 | no two rows share a non-NULL key after an upsert |
| LonghubangDb.SameKeyTwiceCountsTwice | longhubang_db.py:137-157 | the same keyed record written twice counts twice yet leaves one row |
| LonghubangDb.SavedAllTakesOneIdPerWrite | longhubang_db.py:137-157 | every written record takes one rowid, whether it inserted or replaced |
| LonghubangDb.LonghubangDatabase.SaveLonghubangData | longhubang_db.py:117-163 | empty input saves nothing and returns 0; the count is the number of records that did not raise; the table is their upserts in order |
| LonghubangDb.LonghubangDatabase.SaveRecords | longhubang_db.py:135-157 | the loop writes each record that did not raise, in order, and counts them |
| LonghubangDb.LonghubangDatabase.Write | longhubang_db.py:137-153 | one INSERT OR REPLACE under the next rowid |
| LonghubangDb.LonghubangDatabase.LonghubangData | longhubang_db.py:165-199 | exactly the rows within the given dates and of the given code, by date then net inflow, descending |
| LonghubangDb.DateThenNetIsTotal | longhubang_db.py:194 | the order by date then net inflow compares every two rows consistently |
| LonghubangDb.LonghubangDatabase.TopYouzi | longhubang_db.py:201-246 | exactly `limit` trader groups within the dates when there are more (all for a negative limit), by total net inflow descending, and no group left out has a larger total; no group appears more often than the grouping yields it |
| LonghubangDb.SqlSum | longhubang_db.py:215-241 | NULL exactly when every value is NULL, otherwise the sum of the values that are set |
| LonghubangDb.Traders | longhubang_db.py:215-241 | each trader of the rows, NULL included, exactly once |
| LonghubangDb.Groups | longhubang_db.py:215-241 | one total per trader |
| LonghubangDb.GroupsCoverRows | longhubang_db.py:215-241 | the groups' trade counts add up to the number of rows |
| LonghubangDb.LonghubangDatabase.SaveAnalysisReport | longhubang_db.py:297-337 | raises (no change) iff a value cannot be bound; otherwise appends one report under the next id |
| LonghubangDb.LonghubangDatabase.DeleteAnalysisReport | longhubang_db.py:410-445 | deletes the report's tracking rows, then the report; true iff the report existed |
| LonghubangDb.LonghubangDatabase.UpdateStockTracking | longhubang_db.py:447-475 | only rows matching (analysis id, code) change |
| LonghubangDb.Tracked | longhubang_db.py:461-472 | rows not matching (analysis id, code) are unchanged, matching rows take the new values |
| LonghubangEngine.Dates | longhubang_engine.py:290-296 | the truthy dates of the records, taken from rq, else 日期 |
| LonghubangEngine.MinText | longhubang_engine.py:301-306 | the smallest date text |
| LonghubangEngine.MaxText | longhubang_engine.py:301-306 | the largest date text |
| LonghubangEngine.DateRange | longhubang_engine.py:280-306 | 未知 without dates; non-text dates raise |
| LonghubangEngine.DateRangeBounds | longhubang_engine.py:292-306 | text dates give the earliest and the latest, joined by 至 when they differ |
| LonghubangEngine.OneDistinctDate | longhubang_engine.py:301-303 | one distinct date gives that date |
| LonghubangEngine.TwoDistinctDates | longhubang_engine.py:301-306 | two different dates give a range that spans both |
| LonghubangEngine.GetDateRange | longhubang_engine.py:280-306 | the loop collects the dates and gives the range |
| LonghubangEngine.Recommend | longhubang_engine.py:224-236 | raises exactly when the stock is not a dict, lacks code, name or net_inflow, or the inflow cannot be formatted; an entry holds the given rank, the stock's code, name and inflow, and the reason "资金净流入 <amount> 元" |
| LonghubangEngine.RankAll | longhubang_engine.py:224-236 | one entry per stock, ranked from 1 in order, raising iff some stock raises |
| LonghubangEngine.RankAllStaysRaised | longhubang_engine.py:224-236 | once a stock raises, the extraction raises |
| LonghubangEngine.TopStocks | longhubang_engine.py:222-224 | empty without top stocks, at most ten |
| LonghubangEngine.Recommended | longhubang_engine.py:210-240 | empty without top stocks; at most ten entries ranked 1..n in summary order |
| LonghubangEngine.ExtractRecommendedStocks | longhubang_engine.py:210-240 | the loop gives the recommended entries |
| LonghubangEngine.FinalReportOf | longhubang_engine.py:242-278 | the title, the time, the counts of recommendations and agents, the four totals from the summary, and a summary text ending in 。 |
| LonghubangEngine.SummaryHasFourClauses | longhubang_engine.py:269-276 | the summary splits at ， into exactly its four clauses |
| LonghubangEngine.RunComprehensiveAnalysis | longhubang_engine.py:38-208 | no data or a failed fetch gives failure with its error and no writes; success holds iff every stage returned and the report was saved, and then the report row is appended |
| LonghubangEngine.Report | longhubang_engine.py:154-199 | success iff the recommendations, the final report, the date range and the saved report all go through |

## Left out

- Market-data providers (akshare, tushare, yfinance, pywencai) and their network calls are function parameters. Technical indicators and percent-change arithmetic over floats are not modelled.
- The language-model transport, the prompt texts, `ai_agents.py` and `deepseek_client.py` are not part of this model. `json.loads` is a function parameter returning a value or the decoder's error.
- The UI files, the DingTalk webhook calls and the display formatting of floats are not part of this model. `str()` of numbers and money formatting are function parameters.
- `main_force_db.py`, `profit_growth_db.py` and `config.py` are not part of this model.
- `batch_analyze_parallel` is left out because it works through a thread pool. `BatchAnalyzePortfolio` only records that the parallel path was chosen.
- SQLite connections, commits and driver exceptions other than failed parameter binding are not modelled. An operation either completes or, where the source raises, is a `Raised` reply.
- Clocks are integer instants in seconds. SQLite's `datetime('now')` is UTC while `datetime.now()` text is local time; the model compares one clock.
- The T+1 SELL→HOLD override exists only as prompt text, so it is not modelled. Neither are action-value validation and a prioritised take-profit / stop-loss / MA-cross evaluator, which the code does not implement.
- Deleting a portfolio stock does not cascade to its analyses. The schema declares a foreign key, but foreign keys are never switched on.
- `get_monitored_stocks` of the monitor database, `get_top_stocks`, `get_statistics`, `get_analysis_reports` / `get_analysis_report`, and the plain `get_stock`, `get_all_stocks` and `search_stocks` readers are left out. They are read-only queries with no rule beyond their SQL.
- `RemoveMonitoredStock`: the `except` branch that returns False after a driver error is not modelled.
- `UpdateHoldingDays`: a buy date that cannot be parsed raises before the commit, so the model changes nothing; per-row partial updates do not occur.
- `ClearOldAlerts`: the source only logs the deleted count, so the method returns nothing.
- `EntryRange`: when only the first part parses, the model gives (minimum, None), as the code does, not (None, None).
- `RunComprehensiveAnalysis`: the stored analysis content holds the final report and the timestamp only. The agents' texts, data information and scoring ranking are left out, and the timestamp is an integer rather than formatted text.
- `DateRange`: dates that are not text raise in the model. Python would still sort numbers among themselves.
- Upper- and lower-casing and digit tests follow ASCII only; white space is the full set Python's `str.strip()` removes.
- `GetStockHistData`: the pandas date conversion and `set_index` are left out; only the column checks that decide whether a reply is used are modelled. The formatted Tushare start and end strings are unused by the source and left out.
- MonitorDb.StockMonitorDatabase.BatchAddOrUpdate: stored values are compared with `==`, not under SQLite's TEXT column affinity, so an integer code 600519 does not match a stored '600519' and is added a second time where SQLite would find it and update.
- PortfolioDb.PortfolioDB.UpdateStock: its code-uniqueness check compares values with `==` and so misses a match that SQLite's TEXT affinity would make between an integer and its text; PortfolioDb.StockByCode and PortfolioManager.ParseItem miss the same match.
- Common.Bindable: a NaN float is treated as a set value although the driver binds it as NULL, which a NOT NULL column refuses; an integer beyond 64 bits is treated as bindable although the driver raises OverflowError.
- Floating-point numbers are exact reals: rounding, NaN arithmetic and infinities are not modelled beyond the explicit NaN value.
- PortfolioManager.SequentialReport: `analyze` is a function of the code, so a code listed twice gets the same outcome both times; the source calls the analysis once per position, and a repeated code could then succeed once and fail once.
- PortfolioManager.BatchAnalyzeSequential: the report's `elapsed_time` field is dropped, because clocks are not modelled.
- PortfolioManager.BatchAnalyzeSequential: the optional progress callback is dropped; a callback that raises after a result is appended, or before the first analysis, is not modelled.
- Common.WindowStart: a negative window gives no start instant because SQLite reads the modifier '--N minutes' (or days) as invalid and yields NULL; every comparison with NULL fails, so such a window selects nothing.

## Findings

| source | as written | input that shows it | evidently intended | confidence | as-written member | corrected member |
|---|---|---|---|---|---|---|
| smart_monitor_deepseek.py:502-505 | when a json code fence has no closing fence, `find` returns -1 and the slice `[json_start:-1]` drops the reply's last character; the decision (SmartMonitor.DecisionOf) is modelled on this slice | a reply that opens a json code fence in front of "{}" and never closes it yields the payload "{" | an unclosed block is read to the end of the reply, giving "{}" (SmartMonitor.IntendedDecisionOf) | not executed | SmartMonitor.UnclosedFenceExample | SmartMonitor.UnclosedFenceRoundTrip |
