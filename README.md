# Crypto price monitor, modelled in Dafny

This project models the decision core of a small cryptocurrency price monitor.
The monitor is a scheduled handler (`lambda_handler`). For every configured
symbol it does the following:

- it fetches the current price, and sends a warning and moves on when the fetch fails;
- it reads the last stored price;
- it appends the new price to the stored history;
- it applies up to three alert strategies:
  - a percentage variation against the last price;
  - a z-score of the price against the moving average of a recent window;
  - the all-time high and low, which are saved only when one of them moves.

The model also covers these helpers:

- the rolling statistics behind those strategies;
- `parse_alerts`, which parses the `SYM:val,SYM:val` settings;
- the start-up test that the required environment variables are set;
- the symbol-to-CoinGecko-id lookup;
- the pump-score arithmetic of the sentiment service, with its volume clamp and its mock data;
- the default record and the migration merge of the per-symbol alert state;
- the `.env` loader run before the handler.

Modules, one per source file, plus two shared helper modules:

| file | module | models |
|---|---|---|
| `statistics.dfy` | `Statistics` | `src/config/services/statistics.py` |
| `price_monitor.dfy` | `PriceMonitor` | `src/handlers/price_monitor.py` |
| `settings.dfy` | `Settings` | `src/config/settings.py` |
| `py_float.dfy` | `PyFloat` | Python's `float()` on decimal text, as `parse_alerts` uses it |
| `coin_mappings.dfy` | `CoinMappings` | `src/config/coin_mappings.py` |
| `sentiment.dfy` | `Sentiment` | `src/config/services/sentiment_service.py` (pure parts) |
| `alert_state.dfy` | `AlertState` | `src/config/services/alert_state.py` (defaults, migration, local store) |
| `env_file.dfy` | `EnvFile` | the `.env` loop of `src/main.py` |
| `text.dfy` | `Text` | `str.strip`, `str.split`, `str.upper` on ASCII letters, `str.replace(x, "")` |
| `wrappers.dfy` | `Wrappers` | `Option` and `Result` |

## How the handler is modelled

Every call the handler makes to storage, to the price feed and to the
messenger is a port of the `PriceMonitor.Monitor` class. Each port call adds
one `Event` to the monitor's `log` field. Its answer is an arbitrary function,
held in `Ports`, of the log so far. Nothing is therefore assumed about how
storage keeps, orders or prunes what it is given.

The functions `VariationStage`, `AverageStage`, `RecordsStage`, `Strategies`,
`SymbolRun` and `HandlerRun` describe which calls a run makes and whether it
goes on. The methods `CheckVariation`, `CheckMovingAverage`, `CheckRecords`,
`RunStrategies`, `ProcessSymbol` and `LambdaHandler` make those calls step by
step. Each method's postcondition says that the calls it appended to the log,
and its outcome, are exactly what the matching function describes. The lemmas
then state the handler's properties on those functions.

A delivery failure in `send_message` is an exception that leaves the handler,
and so is a stored last price of zero. A run that raises is a `Stopped` outcome
and skips the remaining symbols. The handler returns `{"status": "ok"}` exactly
when no symbol stopped the loop.

Python floats are exact reals. The square root inside `statistics.stdev` is a
parameter `sqrt` that must be the non-negative square root (`IsSqrt`). The clock
reading `time.time()` is the parameter `ts`.

Where the design description and the code disagree, the model follows the code:

- Standard deviation is the sample form, with denominator n - 1 (`statistics.stdev`), not the population form.
- A failed message delivery is not logged and ignored. The exception propagates out of `lambda_handler` and ends the run: `LambdaHandler`, `HandlerStopReasons`.
- The design names cooldowns, volume z-scores, sideways and breakout detection, RSI, VWAP and momentum. The code only reads their settings and keeps unused state fields for them, so there is nothing of them to model.

## Model

| member | source | states |
|---|---|---|
| Statistics.Prices | src/config/services/statistics.py:42 | the list of prices has one entry per history record, in order |
| Statistics.MinOf | src/config/services/statistics.py:47 | `min` is at most every price |
| Statistics.MinOfIsPrice | src/config/services/statistics.py:47 | the minimum is one of the prices |
| Statistics.MaxOf | src/config/services/statistics.py:48 | `max` is at least every price |
| Statistics.MaxOfIsPrice | src/config/services/statistics.py:48 | the maximum is one of the prices |
| Statistics.MeanBetweenExtremes | src/config/services/statistics.py:9-13 | the sum of the prices divided by their count lies between the least and the greatest price |
| Statistics.CalculateMovingAverage | src/config/services/statistics.py:9-13 | 0.0 for no prices; otherwise mean times count equals the sum, and the mean lies between min and max |
| Statistics.SampleVariance | src/config/services/statistics.py:16-20 | the sample variance (n - 1 denominator) is non-negative |
| Statistics.FlatVarianceZero | src/config/services/statistics.py:16-20 | equal prices have zero sample variance |
| Statistics.CalculateStdDeviation | src/config/services/statistics.py:16-20 | 0.0 below two prices; otherwise its square is the sample variance; never negative; zero for equal prices |
| Statistics.GetPriceStatistics | src/config/services/statistics.py:23-50 | all zeros for an empty history; otherwise count is the length, every price lies in [min, max], min <= mean <= max, the deviation is non-negative and zero for equal prices |
| Statistics.PriceStatisticsMean | src/config/services/statistics.py:36-49 | for a non-empty history the reported mean is the sum of the prices divided by the number of entries |
| Statistics.PriceStatisticsDeviation | src/config/services/statistics.py:16-46 | the reported deviation is 0.0 below two entries, otherwise `calculate_std_deviation` of the prices, the non-negative root of their sample variance |
| Statistics.PriceStatisticsExtremesOccur | src/config/services/statistics.py:47-48 | the reported min and max are prices of the history |
| Statistics.CheckAnomaly | src/config/services/statistics.py:53-72 | a zero deviation gives `(False, 0.0)`; otherwise z times deviation is price minus mean, and it is an anomaly iff abs(z) >= threshold |
| Statistics.AnomalyIsOutsideBand | src/config/services/statistics.py:66-70 | with a non-zero deviation, an anomaly iff the price is `threshold` deviations or more from the mean |
| Statistics.FlatHistoryNeverAnomalous | src/config/services/statistics.py:46-67 | a history of equal prices never makes a price anomalous |
| Statistics.AnomalyExamples | src/config/services/statistics.py:53-72 | mean 100, deviation 10, threshold 2: 121 is an anomaly with z 2.1, 115 is not (z 1.5) |
| Statistics.RecordUpdate | src/config/services/statistics.py:75-98 | new high iff price > stored high (0 if absent); new low iff a finite low is stored and the price is under it; an infinite or missing low becomes the price without a new-low report; neither record ever gets worse than before or than the price |
| Statistics.RecordUpdateIdempotent | src/config/services/statistics.py:75-98 | a second update with the same price reports nothing new and changes nothing |
| Statistics.UpdateRecords | src/config/services/statistics.py:75-98 | rewrites the records of the stats object in place, returns that same object, and the new records and flags are `RecordUpdate` of the old ones |
| Statistics.LatestTimestamp | src/config/services/statistics.py:116 | the latest timestamp is one of the history's and no timestamp exceeds it |
| Statistics.KeepSince | src/config/services/statistics.py:119 | the comprehension keeps only entries at or after the cut-off and never grows the list |
| Statistics.KeepSinceMembers | src/config/services/statistics.py:119 | an entry is kept iff it is in the history and at or after the cut-off |
| Statistics.KeepSinceAppend | src/config/services/statistics.py:119 | the filter keeps the order: it distributes over concatenation |
| Statistics.KeepSinceAll | src/config/services/statistics.py:119 | a list whose entries are all recent enough passes unchanged |
| Statistics.FilterRecentHistory | src/config/services/statistics.py:101-119 | empty for an empty history; otherwise the entries at or after the latest timestamp minus `hours` hours, never more than the history |
| Statistics.FilterRecentHistoryMembers | src/config/services/statistics.py:116-119 | an entry survives iff it is in the history and within `hours` hours of the latest one |
| Statistics.FilterRecentHistoryKeepsLatest | src/config/services/statistics.py:116-119 | with a non-negative window the latest entry survives, so the window is not empty |
| Statistics.FilterRecentHistoryNegativeWindow | src/config/services/statistics.py:117-119 | a negative window keeps nothing |
| Statistics.FilterRecentHistoryIdempotent | src/config/services/statistics.py:101-119 | filtering twice is filtering once |
| PriceMonitor.PercentChange | src/handlers/price_monitor.py:43 | the variation times the last price is 100 times the change |
| PriceMonitor.Monitor.FetchPrice | src/handlers/price_monitor.py:25 | records the price request and returns the feed's answer (`None` where it raises) |
| PriceMonitor.Monitor.GetLastPrice | src/handlers/price_monitor.py:34 | records the read and returns the stored last price |
| PriceMonitor.Monitor.SavePriceToHistory | src/handlers/price_monitor.py:37 | records the append of the price with the run's timestamp |
| PriceMonitor.Monitor.GetPriceHistory | src/handlers/price_monitor.py:58 | records the read and returns the stored history |
| PriceMonitor.Monitor.GetStats | src/handlers/price_monitor.py:84 | records the read and returns the stored records |
| PriceMonitor.Monitor.SaveStats | src/handlers/price_monitor.py:109 | records the save of the given records |
| PriceMonitor.Monitor.SendMessage | src/handlers/price_monitor.py:29-30 | records the send and returns whether it was delivered |
| PriceMonitor.Monitor.CheckVariation | src/handlers/price_monitor.py:40-54 | the calls made and the outcome are those of `VariationStage` |
| PriceMonitor.Monitor.CheckMovingAverage | src/handlers/price_monitor.py:57-80 | the calls made and the outcome are those of `AverageStage` |
| PriceMonitor.Monitor.CheckRecords | src/handlers/price_monitor.py:83-109 | the calls made and the outcome are those of `RecordsStage`, with the stats object updated in place |
| PriceMonitor.Monitor.RunStrategies | src/handlers/price_monitor.py:39-109 | the three strategies in order, an exception skipping the rest: the calls and outcome of `Strategies` |
| PriceMonitor.Monitor.ProcessSymbol | src/handlers/price_monitor.py:23-109 | one loop iteration: the calls and outcome of `SymbolRun` |
| PriceMonitor.Monitor.LambdaHandler | src/handlers/price_monitor.py:16-114 | the log grows by exactly the calls of `HandlerRun` over the configured symbols; returns ok iff no symbol stopped the loop, otherwise raises that symbol's exception |
| PriceMonitor.HandlerRunStep | src/handlers/price_monitor.py:22 | the run over one more symbol is the earlier run followed by that symbol's run |
| PriceMonitor.StoppedRunStaysStopped | src/handlers/price_monitor.py:22 | once a symbol raises, the symbols after it make no call |
| PriceMonitor.FetchFailureWarnsOnce | src/handlers/price_monitor.py:24-31 | a failed fetch gives exactly one warning and no strategy; the loop goes on unless the warning itself fails |
| PriceMonitor.LastPriceReadBeforeAppend | src/handlers/price_monitor.py:25-37 | after a fetched price come the last-price read and then the append; the strategies compare with the last price read before the append |
| PriceMonitor.VariationAlertIff | src/handlers/price_monitor.py:40-47 | the variation alert is sent iff the symbol has a limit, a last price is stored and is not zero, and abs(variation) >= limit |
| PriceMonitor.VariationAlertContent | src/handlers/price_monitor.py:43-54 | the alert carries the variation, the last and the new price; "up" iff the variation is positive, which for a positive last price means the price rose |
| PriceMonitor.ZeroLastPriceRaises | src/handlers/price_monitor.py:37-43 | a stored last price of zero raises division by zero after the new price is already appended |
| PriceMonitor.AverageReadsHistoryIff | src/handlers/price_monitor.py:57-58 | the history is read iff the strategy is `moving_average` or `both` |
| PriceMonitor.AnomalyAlertIff | src/handlers/price_monitor.py:57-78 | the anomaly alert is sent iff the history and its recent window both hold 10 entries or more and `check_anomaly` reports an anomaly; otherwise the history is read and nothing else happens |
| PriceMonitor.AnomalyAlertContent | src/handlers/price_monitor.py:64-78 | the alert carries the window's mean and deviation and the price; the deviation is then positive, the price is `threshold` deviations or more from the mean, and the alert says "up" iff the price is above the mean; the run goes on iff the alert is delivered |
| PriceMonitor.AnomalousPrice | src/handlers/price_monitor.py:64-71 | an anomalous price against a non-negative deviation means a positive deviation, a price outside the band, and "up" exactly above the mean |
| PriceMonitor.HistoryLengthCheckRedundant | src/handlers/price_monitor.py:60-63 | a window of 10 or more entries implies a history of 10 or more, so the first length test never decides anything |
| PriceMonitor.FlatWindowNeverAlerts | src/handlers/price_monitor.py:61-70 | a window of equal prices never sends an anomaly alert |
| PriceMonitor.RecordsReadStatsIff | src/handlers/price_monitor.py:83-84 | the records are read iff the strategy is `records` or `both` |
| PriceMonitor.RecordsSavedOnlyOnChange | src/handlers/price_monitor.py:90-109 | the updated records are saved, as the last call, iff there is a new high or a new low and every alert before was delivered; nothing else is saved |
| PriceMonitor.RecordAlertsReportPreviousValues | src/handlers/price_monitor.py:86-105 | the high alert reports the stored high, which the price exceeds; the low alert reports the stored low, which is always a number above the price, so the "N/A" text is never produced |
| PriceMonitor.FirstObservation | src/handlers/price_monitor.py:83-109 | with no stored records, a positive price sends one new-high alert over 0 and saves both records as that price |
| PriceMonitor.Requested | src/handlers/price_monitor.py:22-25 | the symbols whose price a run requested, in order |
| PriceMonitor.RequestedAppend | src/handlers/price_monitor.py:22-25 | the requested symbols of two runs in a row are the first's followed by the second's |
| PriceMonitor.VariationRequestsNothing | src/handlers/price_monitor.py:40-54 | the variation check fetches no price |
| PriceMonitor.AverageRequestsNothing | src/handlers/price_monitor.py:57-80 | the moving-average check fetches no price |
| PriceMonitor.RecordsRequestNothing | src/handlers/price_monitor.py:83-109 | the records check fetches no price |
| PriceMonitor.StrategiesRequestNothing | src/handlers/price_monitor.py:39-109 | the strategies fetch no price |
| PriceMonitor.SymbolRunRequestsOnce | src/handlers/price_monitor.py:22-109 | one iteration requests its own symbol's price once and no other |
| PriceMonitor.HandlerRunVisitsInOrder | src/handlers/price_monitor.py:22-25 | a completed run requested every configured symbol once, in order; a stopped run requested a non-empty prefix of them |
| PriceMonitor.StagesComplete | src/handlers/price_monitor.py:40-109 | with every message delivered and no zero last price for a symbol with a limit, no strategy raises |
| PriceMonitor.SymbolRunCompletes | src/handlers/price_monitor.py:22-109 | under the same conditions, no iteration raises |
| PriceMonitor.HandlerCompletes | src/handlers/price_monitor.py:22-114 | when every message is delivered and no stored last price of a symbol with a limit is zero, the handler returns ok |
| PriceMonitor.StagesExplained | src/handlers/price_monitor.py:40-109 | a strategy stops only on a zero last price of a symbol with a limit, or on the message it sent last |
| PriceMonitor.ExplainedAfter | src/handlers/price_monitor.py:22-109 | calls made before a step do not change what explains its stop |
| PriceMonitor.SymbolStopReasons | src/handlers/price_monitor.py:24-109 | an iteration stops only on a zero last price of its symbol, which has a limit, or on the message it sent last |
| PriceMonitor.HandlerStopReasons | src/handlers/price_monitor.py:22-114 | the handler raises only division by zero for a configured symbol with a limit, or the delivery error of the last message it sent |
| Settings.ClassifyPart | src/config/settings.py:41-45 | a part is skipped iff it holds no ':' |
| Settings.ClassifyPartMeaning | src/config/settings.py:44-45 | a part with ':' maps the untrimmed text before it to `float` of the text after it; a second ':' fails the unpack; text `float` refuses raises a value error |
| Settings.ParseAlerts | src/config/settings.py:36-46 | the loop computes `Alerts(raw)`, and the empty input gives the empty map |
| Settings.FoldFailsIffBadPart | src/config/settings.py:41-45 | parsing raises iff some part has a ':' and is not `symbol:number` |
| Settings.FoldKeysFromParts | src/config/settings.py:45 | every symbol in the result comes from some part |
| Settings.FoldKeepsUnmentioned | src/config/settings.py:45 | a symbol no part mentions keeps its earlier value |
| Settings.FoldLastOccurrenceWins | src/config/settings.py:45 | a repeated symbol takes the value of its last occurrence |
| Settings.ClassifyNumberPart | src/config/settings.py:44-45 | a part `symbol:digits` with no ':' in the symbol maps the symbol to the number |
| Settings.AlertsSkipsPartWithoutColon | src/config/settings.py:36-46 | `symbol:digits,other` (as in `BTC:2,ETH`) parses to the one-entry map, the part without ':' skipped |
| Settings.Missing | src/config/settings.py:4 | a name is listed iff it is required and unset or empty |
| Settings.MissingAppend | src/config/settings.py:4 | the filter keeps the order of the required names |
| Settings.CheckRequired | src/config/settings.py:3-6 | loading goes on iff all three required variables are set and non-empty; otherwise it raises with a non-empty list of such names |
| Settings.CheckRequiredReportsInOrder | src/config/settings.py:3-6 | with the bot token set and neither the bucket nor the chat id, those two are reported, in that order |
| PyFloat.ParseMantissa | src/config/settings.py:45 | a digits-and-point literal reads as a non-negative number |
| PyFloat.ParseUnsigned | src/config/settings.py:45 | an unsigned literal with an optional exponent reads as a non-negative number |
| PyFloat.DigitsRoundTrip | src/config/settings.py:45 | a whole number written in decimal reads back as itself |
| PyFloat.ParseFloatOfNat | src/config/settings.py:45 | `float` of a whole number's decimal text is that number |
| PyFloat.ParseFloatOfNegatedNat | src/config/settings.py:45 | the same with a minus sign |
| PyFloat.ParseFloatPadded | src/config/settings.py:45 | `float` of a whole number's decimal text with any whitespace before and after it is that number |
| PyFloat.ParseFloatFraction | src/config/settings.py:45 | a point needs digits on one side only: `.ds` reads as the digits' value over ten to the number of digits |
| PyFloat.ParseFloatRefusesTwoPoints | src/config/settings.py:45 | digits with two decimal points are refused, whatever digits surround them |
| PyFloat.ParseFloatRefusesBlank | src/config/settings.py:45 | the empty text, and white space only, is refused |
| CoinMappings.CleanSymbol | src/config/coin_mappings.py:28 | the key is never longer than the symbol |
| CoinMappings.GetCoingeckoId | src/config/coin_mappings.py:28-29 | the result is always a value of the table; the cleaned key's entry when present; `bitcoin` when neither key is present |
| CoinMappings.GetCoingeckoIdIgnoresCase | src/config/coin_mappings.py:28-29 | the lookup ignores case |
| CoinMappings.RemoveAllWithoutU | src/config/coin_mappings.py:28 | text without `U` has no `USDT` to remove |
| CoinMappings.CleanPlainSymbol | src/config/coin_mappings.py:28 | an upper-case symbol without `U` is its own key |
| CoinMappings.RemoveTrailingUsdt | src/config/coin_mappings.py:28 | removing `USDT` from text without `U` followed by `USDT` leaves the text |
| CoinMappings.CleanUsdtPair | src/config/coin_mappings.py:28 | `BASEUSDT` cleans to `BASE` for any upper-case base without `U` |
| CoinMappings.CleanOfPairKey | src/config/coin_mappings.py:6-28 | each `...USDT` key of the table cleans to its three-letter base |
| CoinMappings.PairKeyBase | src/config/coin_mappings.py:5-16 | the base of each `...USDT` key is a key with the same id |
| CoinMappings.CleanOfKey | src/config/coin_mappings.py:5-28 | each key of the table cleans to a key with the same id |
| CoinMappings.GetCoingeckoIdOfKey | src/config/coin_mappings.py:5-29 | every key of the table looks up its own entry |
| CoinMappings.SecondFallbackUnused | src/config/coin_mappings.py:29 | the upper-cased fallback never changes the answer |
| CoinMappings.GetCoingeckoIdBitcoin | src/config/coin_mappings.py:5-29 | every spelling of `BTC` (`btc`, `Btc`, ...) gives `bitcoin` |
| CoinMappings.SameUpperSameId | src/config/coin_mappings.py:28-29 | two symbols with the same upper-case form get the same id |
| CoinMappings.GetCoingeckoIdUnknown | src/config/coin_mappings.py:28-29 | a symbol whose cleaned key (upper-cased, every `USDT` removed) is outside the table gives `bitcoin` |
| CoinMappings.GetCoingeckoIdPepe | src/config/coin_mappings.py:28-29 | `PEPE`, which is outside the table, gives `bitcoin` |
| Sentiment.Truncate | src/config/services/sentiment_service.py:76 | `int()` truncates toward zero, for both signs |
| Sentiment.TruncateMonotone | src/config/services/sentiment_service.py:76 | truncation keeps order |
| Sentiment.SentimentScore | src/config/services/sentiment_service.py:68-70 | 0 up to a sentiment of 50; above it, twice the excess |
| Sentiment.TechnicalScore | src/config/services/sentiment_service.py:71-72 | the technical component lies in [0, 100] |
| Sentiment.HypeScore | src/config/services/sentiment_service.py:74 | at most 100, and non-negative for a non-negative increase |
| Sentiment.CalculatePumpScore | src/config/services/sentiment_service.py:57-94 | the score lies in [0, 100] and is the clamp of the truncated weighted sum minus the penalties; buy iff >= 80, wait iff in [50, 80), sell iff < 50; high risk iff RSI > 80 or sentiment < 30 |
| Sentiment.ScoreMonotoneInIncrease | src/config/services/sentiment_service.py:62-81 | more social increase never lowers the score |
| Sentiment.ScoreMonotoneInSentiment | src/config/services/sentiment_service.py:61-81 | a higher sentiment never lowers the score |
| Sentiment.DefaultInputsScore | src/config/services/sentiment_service.py:61-66 | with every input missing (sentiment 50, increase 0, volume 0, RSI 50) the score is 16: sell, no high risk |
| Sentiment.VolumeIncrease | src/config/services/sentiment_service.py:37-41 | in [0, 100]; 0 without a positive previous volume; otherwise 0 for no growth, 100 from doubling up, and the percentage growth between |
| Sentiment.MockDataScore | src/config/services/sentiment_service.py:61-105 | the mock record with no technical metrics scores 22: sell, no high risk |
| AlertState.DefaultStateFields | src/config/services/alert_state.py:29-36 | exactly the six declared fields, each 0, 0.0 or False |
| AlertState.FillMissing | src/config/services/alert_state.py:44-60 | the loop over a dict's keys, adding each missing key with its default, yields the defaults overridden by the loaded object |
| AlertState.FillDefaults | src/config/services/alert_state.py:44-46 | the loaded fields are all kept, and every default field the object lacks is added with its default value |
| AlertState.LoadedState | src/config/services/alert_state.py:38-66 | an object is extended with the missing defaults; nothing found, or an unreadable file, gives the default record |
| AlertState.GetAlertState | src/config/services/alert_state.py:38-66 | the load computes `LoadedState` |
| AlertState.LoadedStateHasDefaults | src/config/services/alert_state.py:44-61 | a loaded object always holds every default field |
| AlertState.ScalarDocumentGivesDefault | src/config/services/alert_state.py:44-66 | a number, boolean or null document makes the migration raise: the default record |
| AlertState.MigrationIdempotent | src/config/services/alert_state.py:44-46 | migrating a migrated object changes nothing |
| AlertState.ListWithoutKeysGivesDefault | src/config/services/alert_state.py:44-49 | any list lacking some default key makes the migration raise (`key not in state` tests membership, the assignment then raises): the default record |
| AlertState.StringWithoutKeysGivesDefault | src/config/services/alert_state.py:44-49 | any string lacking some default key as a substring makes the migration raise: the default record |
| AlertState.ListWithoutKeysExample | src/config/services/alert_state.py:44-49 | the list `["last_alert_ts"]` reads as the default record |
| AlertState.LocalStateDir.Save | src/config/services/alert_state.py:78-82 | the symbol's file holds the state, so a later read finds that document; the model keys files by the symbol string, so every other symbol reads as before |
| AlertState.LocalStateDir.Get | src/config/services/alert_state.py:38-50 | the local load computes `LoadedState` of the symbol's file |
| AlertState.LocalStateDir.SaveThenGet | src/config/services/alert_state.py:39-82 | getting after saving returns the saved state extended with the missing defaults |
| EnvFile.ClassifyStripped | src/main.py:13-15 | a stripped line is skipped iff it is empty, starts with `#` or has no `=`; an assignment splits it at the first `=` into a non-empty key without `=` and the rest; the empty key or a NUL raises |
| EnvFile.ClassifyAssignment | src/main.py:13-14 | `key=value` with a proper key assigns exactly that key and value, `=` signs in the value included |
| EnvFile.StripLineEnd | src/main.py:12 | stripping a line with visible ends removes only its newline |
| EnvFile.AssignmentLine | src/main.py:12-14 | a line `key=value` plus newline assigns exactly that key and value: spaces beside `=` are kept and the value may hold `=` |
| EnvFile.LoadEnv | src/main.py:11-15 | the loop computes `LoadLines` |
| EnvFile.FoldRaisesIffRaisingLine | src/main.py:15 | loading raises iff some line raises |
| EnvFile.FoldKeepsUnassigned | src/main.py:15 | a variable no line assigns is not added, changed or removed |
| EnvFile.FoldLastAssignmentWins | src/main.py:15 | a repeated key takes the value of its last line |
| EnvFile.LoadLinesFacts | src/main.py:11-15 | the last three facts, on the file's lines |
| EnvFile.FoldOfIgnored | src/main.py:13 | skipped lines leave the environment as it was |
| EnvFile.SkippedLinesChangeNothing | src/main.py:11-13 | a file of skipped lines leaves the environment as it was |
| EnvFile.BlankLineIgnored | src/main.py:12-13 | a line of white space only is skipped |
| EnvFile.CommentIgnored | src/main.py:13 | a comment line is skipped even when it holds `=` |
| EnvFile.TextWithoutEqualsIgnored | src/main.py:13 | a line without `=` is skipped |
| EnvFile.EmptyKeyRaises | src/main.py:14-15 | a stripped line starting with `=` has the empty key, which the environment refuses |
| Text.Strip | src/main.py:12 | the stripped text neither starts nor ends with whitespace |
| Text.StripLeft | src/main.py:12 | the result is a suffix of the input, everything dropped before it is whitespace, and it does not start with whitespace |
| Text.StripRight | src/main.py:12 | the result is a prefix of the input, everything dropped after it is whitespace, and it does not end with whitespace |
| Text.StripDropsSpaces | src/main.py:12 | everything `strip()` drops at the end is whitespace |
| Text.StripIdempotent | src/main.py:12 | stripping twice is stripping once |
| Text.StripPadded | src/main.py:12 | whitespace before and after a text with visible ends is exactly what the strip removes |
| Text.Split | src/config/settings.py:39 | one more piece than separators, and no piece holds the separator |
| Text.JoinSplit | src/config/settings.py:39 | joining the split parts with the separator gives the input back |
| Text.SplitNoSep | src/config/settings.py:39 | text without the separator splits into itself alone |
| Text.SplitPair | src/config/settings.py:39 | two texts joined by one separator neither holds split back into the two |
| Text.SplitOnce | src/main.py:14 | `split('=', 1)`: the text is the key, `=` and the value, and the key holds no `=` |
| Text.UpperIdempotent | src/config/coin_mappings.py:28 | upper-casing twice is upper-casing once |

## Left out

- Network and storage I/O are ports of `PriceMonitor.Monitor`, answering from the log of earlier calls. This covers the CoinGecko price fetch, the Telegram delivery and S3 or local storage of prices, histories and records. Their implementations are foreign code.
- The persistence functions `save_price_to_history`, `get_price_history`, `get_stats` and `save_stats` are not defined in `src/config/services/s3_service.py`. They are ports with no assumed pruning or ordering.
- Storage ports are assumed not to raise. Only `get_price` and `send_message` failures are modelled.
- Message text and formatting are not modelled: emojis, number formats, the exception text in the fetch warning, and the `print` logging. A message is a datatype carrying its numbers.
- A stored last-price record without a `price` key (a `KeyError`) is not modelled. The stored last price is a number or nothing.
- Extra keys of the stats dict are not modelled. Only `all_time_high` and `all_time_low` are.
- Statistics.CalculateStdDeviation: IEEE floating point and the exact rounding of `statistics.stdev` are not modelled. Prices are exact reals and the square root is a parameter.
- Sentiment.CalculatePumpScore: the free-text `razao_curta` is not produced, and an RSI string other than `"N/A"` is not modelled.
- `get_sentiment_data`: only the volume clamp and the mock data are modelled. The HTTP request and JSON extraction are network code.
- Text.Upper, CoinMappings.GetCoingeckoId, PyFloat.ParseFloat: only ASCII is modelled. Case mapping covers the letters `a` to `z`, and digits are `0` to `9`. Python's `str.upper()` maps other letters too (`"ſol".upper()` is `"SOL"`, so the source finds `solana` where the model gives `bitcoin`). Python's `float()` accepts other Unicode decimal digits (`float("٣")` is 3.0, which the model refuses).
- PyFloat.ParseFloat: `inf`, `nan`, `infinity` and digit-group underscores are not accepted, although Python's `float()` accepts them. Mapping such a threshold makes no sense.
- AlertState.LoadedState: JSON decoding itself is a port. The stored document is given already decoded, or as unreadable. A list naming every default key, or a string holding every key name as a substring, survives the migration loop unchanged. This is modelled, but no other property is stated for it.
- AlertState: the S3 branch of `get_alert_state` and `save_alert_state` behaves as the store does: missing key, any error, or the document. Only the local directory is a class. The S3 client is foreign code.
- AlertState.LocalStateDir.Save: the model assumes one distinct file per symbol string and a write that never fails. The source's `LOCAL_STATE_DIR / f"{symbol}_alert_state.json"` does not give that. `pathlib` collapses `.` components, so `"./BTC"` and `"BTC"` share one file. On a case-insensitive file system `"btc"` and `"BTC"` share one too. In both cases, saving one symbol changes what the other reads. A symbol holding `/` makes `write_text` raise `FileNotFoundError`, because only `LOCAL_STATE_DIR` itself is created.
- EnvFile.LoadEnv: when a line raises, the variables assigned before it stay in `os.environ`. The model returns only the error, not that partial environment.
- The `__main__` blocks of `src/main.py` (file existence, printing, calling the handler) are I/O. `src/test_sentiment.py` is a script against the live API.
- Cooldowns, volume z-scores, sideways and breakout detection, RSI, VWAP and momentum have settings and state fields but no implementation in the code, so there is nothing to model.
