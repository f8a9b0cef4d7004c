# fintech-app: a verified model of the options-advisory rules

This project models the deterministic core of an options-advisory tool for a
TSLA holding, in Dafny. It covers:

- **Ledger** (`Database`): four in-memory tables (portfolio snapshots,
  transactions, options positions, stock positions). The model covers id
  allocation, appends, in-place update of the first matching record,
  delete by id, upsert by symbol, and the filter/sort/limit queries.
- **Portfolio** (`Portfolio`): an object with shares, cash and option
  positions. A buy is refused when cash is short; otherwise cash is debited
  on a buy and credited on a sell. The module also covers the valuation
  loop and the recording of share changes into the ledger.
- **Strategy rules** (`StrategyEngine`):
  - covered calls;
  - wheel puts and their after-assignment calls;
  - directional call and put buys, gated by RSI and the 50-day average;
  - the concatenation of all of them in a fixed order.
- **Indicators and helpers** (`Utils`):
  - nearest-strike premium lookup;
  - simple moving average and RSI over a sequence of closes;
  - risk-sized quantity;
  - the expiry-window filter;
  - the OTM/ITM rationale choice.
- **Covered-call monitor** (`CoveredCallMonitor`):
  - days to expiration;
  - the mid-price rule;
  - OTM/ITM status and P/L;
  - strict alert thresholds with an ordered list of reasons;
  - the three-tier roll alert;
  - the gate before an alert e-mail.
- **Configuration** (`Config`): defaults merged with a JSON override file,
  and normalisation of the `EPS_PROJECTIONS` keys through Python's `int()`.
- **Chat client bookkeeping** (`GrokChat`): the conversation history, the
  outgoing message list, the fallback model lists and the default-model
  choice.

Three helper modules support the seven above:

- `Wrappers` holds `Option` and Python truthiness of optional strings.
- `PyNum` holds Python numerics: `int()` truncation, `round()` half-to-even,
  string ordering, slicing and `str(int)`.
- `Sequences` holds filter, flat-map and a stable insertion sort with its
  sortedness and permutation proofs.

Inputs that come from the outside world are parameters:

- the clock (`now`, `today` as a day number, days to expiry);
- the file contents (`StoreFile`, `ConfigSource`);
- market data (option chains, prices, RSI and moving-average values);
- the HTTP replies (`ApiReply`, `ModelsReply`);
- environment variables;
- whether an e-mail was delivered.

A Python `KeyError` from the EPS lookup becomes `Generated.MissingEpsYear`.
A Python `ZeroDivisionError` becomes an explicit outcome: `Generated.DivisionByZero`,
`Status.ZeroDivision`, or `raised` in `SendMonitorAlert`.

## Model

| member | source | states |
|---|---|---|
| Database.ReadStore | src/fintech_app/database.py:34-49 | An unreadable or non-object file gives four empty tables; otherwise each table is the stored list when it is a list and empty when it is absent or not a list |
| Database.WriteThenRead | src/fintech_app/database.py:34-52 | Reading back a written store gives the same four tables |
| Database.NextId | src/fintech_app/database.py:54-55 | The new id is 1 for an empty table, otherwise one more than some record's id (a missing id counts as 0), and it exceeds every id in the table |
| Database.StatusUpdated | src/fintech_app/database.py:124-133 | The found position gets the new status and update time; closed_at is set iff the status is closed, assigned or expired; profit_loss changes only when given and notes only when non-empty; every other field is kept |
| Database.Repriced | src/fintech_app/database.py:194-202 | An existing stock position gets the new quantity, cost, price and value (quantity times price when a price is given, else times cost); notes change only when non-empty; id, symbol and creation time are kept |
| Database.ExpiryStrikeOrder | src/fintech_app/database.py:155 | Ordering by (expiration, strike) is a total preorder, so sorting by it is well defined |
| Database.CreatedOrder | src/fintech_app/database.py:162 | Newest-created-first is a total preorder |
| Database.TransactionOrder | src/fintech_app/database.py:169 | Newest-timestamp-first on transactions is a total preorder |
| Database.SnapshotOrder | src/fintech_app/database.py:176 | Newest-timestamp-first on snapshots is a total preorder |
| Database.PortfolioDB.constructor | src/fintech_app/database.py:18-32 | The ledger's tables are what reading its file gives |
| Database.PortfolioDB.SavePortfolioSnapshot | src/fintech_app/database.py:60-72 | Exactly one snapshot with a fresh id and the given values is appended; the other three tables are unchanged |
| Database.PortfolioDB.AddTransaction | src/fintech_app/database.py:74-93 | Exactly one transaction with a fresh id and the given fields is appended; the other three tables are unchanged |
| Database.PortfolioDB.AddOptionsPosition | src/fintech_app/database.py:95-118 | The returned id exceeds every stored id and is the id of the single appended position, which is open with no closed_at and no profit_loss; the other tables are unchanged |
| Database.PortfolioDB.UpdateOptionsPosition | src/fintech_app/database.py:120-135 | Without a record carrying the id, the table is unchanged; otherwise only the first record with that id is replaced by its StatusUpdated form; the other tables are unchanged |
| Database.PortfolioDB.DeleteOptionsPosition | src/fintech_app/database.py:137-146 | Returns true iff some position had the id; then every such position is removed and the rest keep their order; on false nothing changes; no position with that id remains |
| Database.PortfolioDB.OpenOptionsPositions | src/fintech_app/database.py:148-156 | Exactly the open positions of the symbol, with their multiplicities, sorted by expiration then strike |
| Database.PortfolioDB.AllOptionsPositions | src/fintech_app/database.py:158-163 | Exactly min(limit, number of the symbol's positions) of the symbol's positions, a sub-multiset of them, newest created first; none left out was created after one returned; all of them when the limit covers them; symbol TSLA and limit 100 by default |
| Database.PortfolioDB.AllOptionsPositionsExtend | src/fintech_app/database.py:158-163 | A smaller limit returns a prefix of what a larger limit returns |
| Database.PortfolioDB.NewestOptionsPositionListed | src/fintech_app/database.py:161-163 | A position of the symbol created strictly after all others of the symbol is returned for every limit of at least 1 |
| Database.PortfolioDB.RecentTransactions | src/fintech_app/database.py:165-170 | Exactly min(limit, number of transactions) stored transactions, a sub-multiset of them, newest first; none left out is newer than one returned; all of them when the limit covers them; limit 50 by default |
| Database.PortfolioDB.RecentTransactionsExtend | src/fintech_app/database.py:165-170 | A smaller limit returns a prefix of what a larger limit returns |
| Database.PortfolioDB.NewestTransactionListed | src/fintech_app/database.py:168-170 | A transaction strictly newer than all others is returned for every limit of at least 1 |
| Database.PortfolioDB.PortfolioHistory | src/fintech_app/database.py:172-177 | Exactly min(limit, number of snapshots) stored snapshots, a sub-multiset of them, newest first; none left out is newer than one returned; all of them when the limit covers them; limit 100 by default |
| Database.PortfolioDB.PortfolioHistoryExtend | src/fintech_app/database.py:172-177 | A smaller limit returns a prefix of what a larger limit returns |
| Database.PortfolioDB.NewestSnapshotListed | src/fintech_app/database.py:175-177 | A snapshot strictly newer than all others is returned for every limit of at least 1 |
| Database.PortfolioDB.LatestPortfolioSnapshot | src/fintech_app/database.py:179-186 | None iff there are no snapshots; otherwise a stored snapshot whose timestamp no other exceeds |
| Database.PortfolioDB.StockPositionOf | src/fintech_app/database.py:217-220 | None iff no stock position has the symbol; otherwise the first position with it |
| Database.Upserted | src/fintech_app/database.py:192-213 | The stock table after the upsert: the first row of the symbol keeps its id and creation time and takes the new quantity, cost, price, value, update time and (when non-empty) notes; without such a row one row with the next id is appended; every other row is unchanged, and the symbol's first row is then that one |
| Database.UpsertedIdempotent | src/fintech_app/database.py:188-215 | Repeating the same upsert leaves the table as the first one did |
| Database.UpsertedKeepsOthers | src/fintech_app/database.py:192-213 | Upserting one symbol leaves the first row of every other symbol at the same index and unchanged |
| Database.PortfolioDB.UpdateStockPosition | src/fintech_app/database.py:188-215 | The table becomes Upserted of the old table; upsert: the first position of the symbol is repriced in place, or one position with a fresh id is appended; afterwards the symbol's position carries the given quantity, cost, price and value; the other tables are unchanged |
| Portfolio.Settle | src/fintech_app/portfolio.py:28-35 | A buy is refused iff its cost exceeds the cash; an accepted buy debits the cost and leaves cash non-negative; a sell credits it |
| Portfolio.TradeFor | src/fintech_app/portfolio.py:91-103 | A trade is recorded iff the share count changed; it is buy_stock iff the count grew; its quantity is the positive difference and its cost that quantity times the price |
| Portfolio.OptionsValueAppend | src/fintech_app/portfolio.py:68-74 | Appending a position adds its intrinsic value plus half its premium times qty times 100 to the options value |
| Portfolio.OptionsValueLowerBound | src/fintech_app/portfolio.py:68-74 | Positions with non-negative premiums and quantities are worth at least half the premium paid for them, and so a non-negative amount |
| Portfolio.AddedValue | src/fintech_app/portfolio.py:28-38 | After a buy, the portfolio value changes by the new position's value minus its cost |
| Portfolio.Portfolio.Value | src/fintech_app/portfolio.py:65-75 | With no positions, the value is shares times price plus cash |
| Portfolio.Portfolio.constructor | src/fintech_app/portfolio.py:6-23 | A stored snapshot overrides shares and cash; a stored TSLA stock position then overrides shares; positions start empty |
| Portfolio.Portfolio.GetValue | src/fintech_app/portfolio.py:65-75 | The loop's result is shares times price, plus cash, plus the sum over positions of intrinsic value plus half the premium, times qty times 100 |
| Portfolio.Portfolio.AddPosition | src/fintech_app/portfolio.py:25-63 | Raises insufficient cash iff a buy costs more than the cash, and then nothing changes; otherwise cash is settled, exactly one position with the given fields is appended, and, when saved with an expiration, one open options position and one transaction are added to the ledger |
| Portfolio.Portfolio.UpdateShares | src/fintech_app/portfolio.py:77-111 | Shares become the new count; when saving, the stock table becomes Upserted of the old one at the new count with the price as cost, the trade of TradeFor is recorded, and a snapshot is appended whose value is the portfolio value when a non-zero price is given and 0 otherwise |
| Portfolio.Portfolio.RecordShares | src/fintech_app/portfolio.py:82-111 | The saving half of update_shares: the stock table becomes Upserted of the old one, so the symbol's position carries the new count at the given price as cost and every other row is kept, the trade of TradeFor is appended, one snapshot is appended, and options positions are unchanged |
| Portfolio.Portfolio.SaveSnapshot | src/fintech_app/portfolio.py:113-121 | With a ledger, exactly one snapshot of shares, cash and value is appended and nothing else changes |
| StrategyEngine.AnnualizedYieldMeaning | src/fintech_app/strategy_engine.py:8-17 | Zero for a past or current expiry; otherwise premium over price, scaled to 365 days, in percent; 12 times the monthly figure for an unparseable date; positive for a positive premium ratio |
| StrategyEngine.CoveredCalls | src/fintech_app/strategy_engine.py:25-46 | No covered call below 100 shares; at most three per expiration |
| StrategyEngine.CoveredCallsShape | src/fintech_app/strategy_engine.py:26-45 | Every covered call has a positive premium, qty = min(shares div 100, 10), between 1 and 10 and covered by the shares, total premium qty times 100 times premium, and one of the three OTM percentages |
| StrategyEngine.CoveredCallsAtExpiry | src/fintech_app/strategy_engine.py:27-45 | The inner loop over the three percentages yields the calls of one expiration, in percentage order |
| StrategyEngine.CoveredCallRecommendations | src/fintech_app/strategy_engine.py:19-46 | The nested loop's result is CoveredCalls of the portfolio's shares |
| StrategyEngine.WheelFailsIff | src/fintech_app/strategy_engine.py:57-65 | The wheel raises a division by zero iff some expiration and percentage have a positive put premium and a zero collateral per contract |
| StrategyEngine.WheelNeverRaises | src/fintech_app/strategy_engine.py:59-65 | With a non-zero cash ratio and put strikes that round above zero, the wheel always produces a list |
| StrategyEngine.WheelPutShaped | src/fintech_app/strategy_engine.py:59-90 | A put, when one is emitted, has a positive premium, qty = min(truncated cash over collateral per contract, 10) between 1 and 10, break-even strike minus premium and required cash strike times 100 times qty |
| StrategyEngine.AfterAssignmentShaped | src/fintech_app/strategy_engine.py:94-120 | At most one after-assignment call per put, with the put's qty and expiration, strike round(1.05 times put strike) and a positive premium |
| StrategyEngine.WheelOutputShaped | src/fintech_app/strategy_engine.py:57-120 | Every wheel record is a put or an after-assignment call; each put has a positive premium, 1 to 10 contracts the cash collateralises, break-even strike minus premium and required cash strike times 100 times qty; every call comes directly after its put with the same qty, strike round(1.05 times put strike) and a positive premium |
| StrategyEngine.PutCollateralCovered | src/fintech_app/strategy_engine.py:64-70 | With a cash ratio of at least 1, a put's required cash never exceeds the cash |
| StrategyEngine.WheelAtExpiry | src/fintech_app/strategy_engine.py:58-120 | The inner loop raises iff some percentage raises, and otherwise yields the records of that expiration |
| StrategyEngine.WheelStrategyRecommendations | src/fintech_app/strategy_engine.py:48-122 | The nested loop's result is the wheel function of the portfolio's cash and shares |
| StrategyEngine.BuyCalls | src/fintech_app/strategy_engine.py:146-162 | No call buy without price above ma50 and RSI above the bullish threshold; every call buy has a positive premium and a positive risk-sized qty |
| StrategyEngine.BuyPuts | src/fintech_app/strategy_engine.py:165-179 | No put buy without RSI below the dip threshold; every put buy has a positive premium and a positive risk-sized qty |
| StrategyEngine.NeutralRsiBuysNothing | src/fintech_app/strategy_engine.py:146-179 | An RSI between the thresholds, or an undefined one, buys neither calls nor puts |
| StrategyEngine.Recommendations | src/fintech_app/strategy_engine.py:124-181 | A division by zero iff the wheel is enabled and raises; otherwise a KeyError iff a call buy qualifies and EPS_PROJECTIONS lacks the integer key 2025; otherwise the recommendations |
| StrategyEngine.MissingSettingsFileRaises | src/fintech_app/strategy_engine.py:151-152 | Without a settings file, a qualifying call buy makes the recommendations end in the KeyError (unless the wheel raised first) |
| StrategyEngine.RecommendationsOrdered | src/fintech_app/strategy_engine.py:126-179 | The output lists covered calls, then wheel records, then call buys, then put buys |
| StrategyEngine.BuyCallRecommendations | src/fintech_app/strategy_engine.py:146-162 | The loop's result is the call buys of every expiration, sized from the portfolio value |
| StrategyEngine.BuyPutRecommendations | src/fintech_app/strategy_engine.py:165-179 | The loop's result is the put buys of every expiration, sized from the portfolio value |
| StrategyEngine.RecommendationsFromParts | src/fintech_app/strategy_engine.py:124-181 | When the year lookup cannot fail, the whole output is the concatenation of the four rule sets, each included when enabled or signalled |
| StrategyEngine.GenerateRecommendations | src/fintech_app/strategy_engine.py:124-181 | The method's result is Recommendations of the portfolio's shares, cash and value, the two error outcomes included |
| Utils.NearestRowIsNearest | src/fintech_app/utils.py:21 | The chosen row's strike is at least as close to the target as every other row's |
| Utils.EstimatePremiumNearest | src/fintech_app/utils.py:18-22 | 0 for an empty table; otherwise the lastPrice of a row whose strike minimises the distance to the target |
| Utils.ExactMatchPremium | src/fintech_app/utils.py:18-22 | With distinct strikes, an exact strike match gives that row's lastPrice |
| Utils.MovingAverage | src/fintech_app/utils.py:6-8 | Same length as the closes; entry i is undefined iff i < window - 1 |
| Utils.MovingAverageBounded | src/fintech_app/utils.py:6-8 | A defined entry is the mean of the window ending at i and lies between any bounds of that window |
| Utils.RsiOf | src/fintech_app/utils.py:15-16 | Undefined iff average gain and loss are both zero; otherwise in [0, 100]; 100 iff there is no loss, 0 iff there is no gain |
| Utils.Rsi | src/fintech_app/utils.py:10-16 | Same length as the closes; undefined before the first full window; every defined value lies in [0, 100] |
| Utils.RsiOfRisingCloses | src/fintech_app/utils.py:10-16 | Strictly rising closes give RSI 100 once the window is full |
| Utils.RsiOfFallingCloses | src/fintech_app/utils.py:10-16 | Strictly falling closes give RSI 0 once the window is full |
| Utils.RiskAdjustedQty | src/fintech_app/utils.py:32-36 | 0 for a premium at or below 0; otherwise the budget divided by premium times 100, truncated toward zero, so non-negative for a non-negative budget |
| Utils.FilterOptionsByWeeks | src/fintech_app/utils.py:38-49 | A sub-map of the input holding exactly the entries whose date parses and whose weeks to expiry lie in [min, max], with their values unchanged |
| Utils.OptionRationale | src/fintech_app/utils.py:51-64 | The call branches iff it is a call; the OTM branches iff the OTM percentage is non-negative |
| Utils.RationaleForPositivePrice | src/fintech_app/utils.py:51-64 | At a positive price, "Generate income" iff a call with strike at least the price, and "Wheel strategy" iff a put with strike at most the price |
| PyNum.Trunc | src/fintech_app/utils.py:36 | Python's int() of a float: rounds toward zero |
| PyNum.RoundHalfEvenNearest | src/fintech_app/strategy_engine.py:28 | Python's round(): the nearest integer, and the even one on a tie |
| PyNum.Take | src/fintech_app/database.py:163 | Python's [:limit]: a prefix of length min(limit, length), or shortened from the end for a negative limit |
| CoveredCallMonitor.DaysToExpiration | src/fintech_app/covered_call_monitor.py:23-25 | Zero for today, negative for a past date, and today plus it gives the expiry |
| CoveredCallMonitor.Mid | src/fintech_app/covered_call_monitor.py:50 | With both sides positive, the midpoint (equidistant from, and between, bid and ask); otherwise the last price |
| CoveredCallMonitor.CurrentPrice | src/fintech_app/covered_call_monitor.py:32-34 | The regular market price when it is truthy; otherwise the current price, or the last close when that is missing |
| CoveredCallMonitor.MarketData | src/fintech_app/covered_call_monitor.py:37-63 | No option data iff the chain is unavailable or has no row at the strike; otherwise bid, ask, last, mid, volume and open interest of the first such row |
| CoveredCallMonitor.CalculateStatus | src/fintech_app/covered_call_monitor.py:65-81 | Not available iff there is no option data; a division by zero iff there is data at price 0; otherwise OTM iff the distance to strike is positive, the absolute distance, P/L per share plus mid equals the credit, and total P/L per share times 100 times contracts |
| CoveredCallMonitor.MoneynessMatchesStrike | src/fintech_app/covered_call_monitor.py:69-78 | At a positive price, OTM iff the strike is above the price |
| CoveredCallMonitor.AlertReasonsExact | src/fintech_app/covered_call_monitor.py:111-122 | One reason per condition met (price strictly above the threshold, days strictly below theirs), the price reason first, no other reasons, and none iff neither is met |
| CoveredCallMonitor.CheckAlertConditions | src/fintech_app/covered_call_monitor.py:109-122 | The reasons built flag by flag are AlertReasons; should_alert iff either strict condition holds iff the reasons are non-empty |
| CoveredCallMonitor.RollAlert | src/fintech_app/covered_call_monitor.py:132 | Near strike iff the price is above 0.95 of the strike, monitor iff it is in (0.85, 0.95] of it, no action iff at most 0.85 of it |
| CoveredCallMonitor.RollAlertMonotone | src/fintech_app/covered_call_monitor.py:132 | A higher price never gives a less urgent roll alert |
| CoveredCallMonitor.GetMonitorData | src/fintech_app/covered_call_monitor.py:124-147 | Raises iff the status divides by zero; otherwise the report carries the price, days to expiry, strike, status, volume, open interest, option data, roll alert and alert reasons, with should_alert iff there are reasons |
| CoveredCallMonitor.SendMonitorAlert | src/fintech_app/covered_call_monitor.py:173-212 | Raises iff the status divides by zero; otherwise an e-mail is composed iff an alert condition holds, nothing is sent without it, and with it the result is the delivery outcome and the e-mail lists the non-empty reasons |
| Config.GetFinds | src/fintech_app/config.py:39 | A lookup succeeds iff some entry has the key, and then yields that entry's value |
| Config.Put | src/fintech_app/config.py:44-47 | Assigning a key makes it map to the value and leaves every other key's lookup unchanged; distinct keys stay distinct |
| Config.MergeGet | src/fintech_app/config.py:37-38 | After update(), a key maps to its override when the override has it and to its base value otherwise |
| Config.Strip | src/fintech_app/config.py:44 | int() ignores surrounding whitespace: the stripped text has no whitespace at either end and is the text itself when it has none |
| Config.StripIsTrimmedSlice | src/fintech_app/config.py:44 | The stripped text is a slice of the text with only whitespace before and after it |
| Config.ParseIntOfString | src/fintech_app/config.py:44 | int() reads back the decimal text of every integer |
| Config.NormalKey | src/fintech_app/config.py:43-46 | A string key that int() accepts becomes that integer; any other key is kept |
| Config.NormalizedGet | src/fintech_app/config.py:41-47 | The keys are exactly the normalised keys of the entries; a key's value is the entry's value when no later entry normalises to the same key; the keys are distinct |
| Config.NormalizeKeys | src/fintech_app/config.py:41-47 | The loop's result is Normalized of the entries |
| Config.WithNormalizedEpsGet | src/fintech_app/config.py:39-47 | Only EPS_PROJECTIONS changes, and only when it is an object, into its normalised form |
| Config.Update | src/fintech_app/config.py:37-38 | The loop's result is Merge of the defaults and the overrides |
| Config.NormalizeEps | src/fintech_app/config.py:39-47 | The method's result is WithNormalizedEps of the merged configuration |
| Config.LoadConfig | src/fintech_app/config.py:30-50 | The method's result is LoadedConfig of the file's state |
| Config.FallbackIsDefaults | src/fintech_app/config.py:31-36 | A missing file, an unreadable file or a non-object value yields exactly the defaults |
| Config.LoadedConfigMerges | src/fintech_app/config.py:37-47 | The key set is defaults union overrides; every other key takes its override or keeps its default; EPS_PROJECTIONS is the normalised override or default |
| Config.DefaultsLackIntegerYears | src/fintech_app/config.py:12-16 | The defaults' EPS table has no integer year key |
| Config.MissingFileBreaksYearLookup | src/fintech_app/config.py:31-32 | Without a file, the EPS value of year 2025 is not found; with an empty override file, it is 1.64 |
| Config.NormalizedDefaultsHaveYears | src/fintech_app/config.py:12-16 | Normalised defaults give 1.64, 2.17 and 11.24 for the years 2025, 2026 and 2030 |
| Config.LoadedConfigNormalized | src/fintech_app/config.py:30-50 | Normalising on every path, a fallback configuration finds the 2025 EPS value 1.64 |
| Config.NormalizedYearLookup | src/fintech_app/utils.py:26 | With the corrected loader, the 2025 lookup succeeds whenever the file does not override EPS_PROJECTIONS |
| Config.DefaultValues | src/fintech_app/config.py:17-23 | The default put percentages are [0.05, 0.075, 0.10], the dip threshold 30 and the bullish threshold 50, so dip below bullish |
| GrokChat.Suffix | src/fintech_app/grok_chat.py:100 | Python's [-n:]: the last n elements, or all of them when there are fewer |
| GrokChat.MessagesAsWritten | src/fintech_app/grok_chat.py:99-101 | The list starts with the system message, then the last 9 history entries, then the input, so it has at most 11 messages |
| GrokChat.InputSentTwice | src/fintech_app/grok_chat.py:42 | Because the input is already in the history, the list as written ends with the input twice, and has 11 messages once the history is long |
| GrokChat.Messages | src/fintech_app/grok_chat.py:99-100 | The intended list: the system message, then the last 9 history entries, at most 10 messages |
| GrokChat.MessagesEndWithInput | src/fintech_app/grok_chat.py:99-101 | The intended list ends with the input exactly once, preceded by the last 8 earlier entries |
| GrokChat.ReplyText | src/fintech_app/grok_chat.py:118-128 | The content of the first choice; the fixed no-response text; an "API Error" text ending with the body; a network-error text; an error text for anything else raised |
| GrokChat.MockReply | src/fintech_app/grok_chat.py:48 | Without a key, the response is the mock text quoting the input |
| GrokChat.Ids | src/fintech_app/grok_chat.py:79 | An id is returned iff a listed model has it, exactly as many times as it is listed |
| GrokChat.IdsConcat | src/fintech_app/grok_chat.py:79 | The ids of a listing are the ids of its first part followed by those of the rest, so they keep the listing's order |
| GrokChat.IdsOfOne | src/fintech_app/grok_chat.py:79 | An entry with an id contributes that id, one without contributes nothing |
| GrokChat.Chat.constructor | src/fintech_app/grok_chat.py:15-18 | A non-empty key given wins over XAI_API_KEY; XAI_MODEL, when set, overrides the default model; the history starts empty |
| GrokChat.Chat.Prompt | src/fintech_app/grok_chat.py:30-55 | The history grows by exactly the user entry and then the assistant entry with the response; without a key, the mock reply and no request; with one, a request with the given (if non-empty) or default model carrying the corrected list Messages (the list as written is that plus the input again), and the reply's text, failures included |
| GrokChat.Chat.GetHistory | src/fintech_app/grok_chat.py:130-132 | The recorded history |
| GrokChat.Chat.ClearHistory | src/fintech_app/grok_chat.py:134-136 | The history becomes empty; key and model are kept |
| GrokChat.Chat.GetAvailableModels | src/fintech_app/grok_chat.py:57-89 | Never empty; the four default models without a key or on any failure; with a listing, its ids, or the three fallback models when it lists none |
| GrokChat.TwoPromptsRecorded | src/fintech_app/grok_chat.py:42-53 | Two prompts add four entries, and the second request's context ends with the first response before the second input |
| GrokChat.ChooseDefaultModel | src/fintech_app/grok_chat.py:158-169 | The requested model if available, otherwise the first available preferred model, otherwise the first available model, otherwise grok-4-0709; always an available model when there is one |

## Left out

- Network, SMTP and file I/O are not modelled: yfinance, the HTTP calls of the chat client, the e-mail transport, and reading or writing the JSON ledger and the configuration file. Their results are inputs, and a ledger operation works on the in-memory tables.
- Clocks are inputs: `now` timestamps, today's date, and the days to each expiry. The ledger takes one `now` per operation. The source reads the clock twice in `add_options_position` (database.py:102-103), in `update_options_position` for `updated_at` and `closed_at` (database.py:127, 131), and in `update_stock_position` for a new row's `created_at` and `updated_at` (database.py:206-207); the model gives both fields the same time.
- `main.py`, `data_fetcher.py`, the printed monitor table and the console chat loop are not part of this model; they are presentation and terminal I/O.
- `project_yield`'s arithmetic is not modelled because it is floating-point exponentiation whose result the source never uses. Its lookup of the 2025 EPS value is modelled, by `Config.EpsFor`, and its `KeyError` by `Generated.MissingEpsYear`.
- Rendered text is not modelled: f-string number formats, rationale strings, e-mail subject and body, request headers, and payload settings (max_tokens, temperature). The model keeps the chosen branch and the numbers instead.
- Floating point is modelled as exact real arithmetic.
- pandas semantics are modelled only in part:
  - RSI and the 50-day average reach the strategy rules as one optional value each, with NaN as None;
  - the nearest-strike lookup leaves ties unspecified;
  - the rolling RSI is computed from simple means of gains and losses.
- Utils.FilterOptionsByWeeks: the result is a map, so the insertion order of the source's dict is not stated. Date parsing is a function parameter.
- Database.PortfolioDB.LatestPortfolioSnapshot: returns a snapshot with a maximal timestamp. Among equal timestamps it does not say which one; the source returns the first stored.
- Database records have fixed fields. A record missing `symbol`, `status` or a sort key, which the source reads with defaults, is not representable; only a missing id is.
- Config.ParseInt accepts ASCII digits, a sign, underscores between digits and Python's whitespace. Non-ASCII Unicode digits, which Python's int() also accepts, are not modelled.
- Config.LoadConfig: requires the override object to have distinct keys. A parsed JSON object is a dict, so duplicate keys cannot reach the merge.
- StrategyEngine.CoveredCallsShape: the numbers are stated before the source's `round(x, 2)` for display (strategy_engine.py:40-43); a premium between 0 and 0.005 is positive in the model but is shown as 0.0.
- StrategyEngine.WheelOutputShaped: premiums, cash and yields are stated before `round(x, 2)` (strategy_engine.py:83-88, 113-118), so a positive premium below 0.005 is shown as 0.0.
- StrategyEngine.BuyCalls: the premium is stated before `round(premium, 2)` (strategy_engine.py:158).
- StrategyEngine.BuyPuts: the premium is stated before `round(premium, 2)` (strategy_engine.py:175).
- StrategyEngine.Recommendations: `project_yield`'s value is unused by the source and is not computed. Only its failing lookup is modelled, as `MissingEpsYear`; `epsYearKnown` says whether the 2025 key exists.
- Utils.OptionRationale: takes a non-zero price. utils.py:53 divides by the price without a guard, and its `ZeroDivisionError` is not modelled.
- Utils.OtmPct: takes a non-zero price, for the same unguarded division at utils.py:53.
- StrategyEngine: the price is a non-zero real. The source divides by it without a guard (strategy_engine.py:14, 17); the zero case is excluded rather than modelled as an error.
- Utils.MovingAverage and Utils.Rsi: require a window of at least 1, as pandas rejects a smaller one.
- GrokChat.Chat.Prompt: the request it returns carries the corrected list `Messages`, not the list the source sends. Its contract also states that the source's list, `MessagesAsWritten`, is that list with the input appended once more (see Findings).
- The option-symbol parser is not part of this model, because its source module is not among the repository files modelled.

## Findings

| source | as written | input that shows it | evidently intended | confidence | as-written member | corrected member |
|---|---|---|---|---|---|---|
| src/fintech_app/config.py:31-36, 49-50 | The fallback branches return the defaults without normalising EPS_PROJECTIONS, so its keys stay the strings "2025", "2026", "2030", while utils.py:26 looks up the integer 2025 | No config.json: EpsFor(LoadedConfig(Missing), 2025) is None (a KeyError in the source), while an empty override file {} gives 1.64 | Normalise the EPS keys on every path, so the year lookup works with or without a file | not executed | Config.MissingFileBreaksYearLookup | Config.NormalizedYearLookup |
| src/fintech_app/grok_chat.py:42, 99-101 | prompt appends the input to the history before _call_xai_api builds the list, which then appends the input again | Any prompt with a key: the last two messages are both the user input; after 4 exchanges the list has 11 messages, against the "system + 9 = 10 total" of line 100 | Send the system message followed by the last 9 history entries, which already end with the input | not executed | GrokChat.InputSentTwice | GrokChat.Messages |
