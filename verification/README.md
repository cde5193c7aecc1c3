# nifty-alpha-screen in Dafny

A Dafny model of the decision core of nifty-alpha-screen, a screener for NSE (National Stock Exchange of India) equities. The screener gathers three kinds of data for each stock:

- price trends: EMAs on the daily and weekly series;
- fundamental ratios: P/E, ROE, debt/equity and market cap;
- exchange delivery statistics from the daily bhavcopy, i.e. how much of the traded quantity was taken into delivery.

It combines them into a clamped score and a BUY/HOLD/AVOID signal. Around that scoring chain sit several pieces of bookkeeping:

- a TTL cache for the remote fundamentals and price data;
- a day-keyed bhavcopy cache with a warm-up phase;
- a retry policy;
- a batched asynchronous pipeline;
- dotted-path configuration with environment overrides.

The repository also ships stand-alone strategy scripts, and the model covers these too:

- the older batch pipeline, `data_pipeline.py`;
- the single-stock analyzer, `stock_analyzer.py`;
- the two strategies of `stock_screener.py`;
- the hybrid momentum/EMA strategy and its backtest bookkeeping;
- the Nifty alpha screen with its filters, normalised composite score, drawdowns and win rate.

There is one module per source file, in a flat set of `.dfy` files. Six shared modules support them:

- `Wrappers`: `Option` and `Result`;
- `PyStrings`: ASCII `upper`, `strip`, `split`, `int()`, `float()`;
- `PyValues`: dictionary values with Python truthiness;
- `Stats`: sums, means and extremes;
- `Ranking`: `sort_values(..., ascending=False)`, `head(n)` and rank columns;
- `Calendar`: integer day numbers, with `weekday()` as the remainder modulo 7.

**Conventions**

- Prices and ratios are `real`. Integers are unbounded.
- Python's `None` is `Option.None`. A pandas or NumPy NaN is `None` wherever the source can produce one.
- A raised exception is `Result.Err`.
- Remote calls, file reads, the clock and the concurrent runtime are parameters of the functions that use them.

Every operation has a contract that states what it computes, including:

- its error paths;
- partner lemmas that tie it to an inverse, an invariant or an independent reference. Examples: sanitisation is idempotent; the cache is transparent; batching preserves per-symbol outcomes; a selection outranks what it drops; exits preserve portfolio value.

## Model

| member | source | states |
|---|---|---|
| Validators.ValidateSymbol | src/utils/validators.py:18-29 | false for the empty string and for lengths outside 2..20; otherwise true exactly when every upper-cased character is in `[A-Z0-9&-]`, tolerating one final newline as `re.match` with `$` does |
| Validators.KeepSymbolChars | src/utils/validators.py:105 | the result holds only alphabet characters and is the input unchanged when the input already does |
| Validators.SanitizeSymbol | src/utils/validators.py:98-110 | `None` for the empty string; `Some` exactly when the stripped, upper-cased, filtered text has length 2..20, and then that text, which validates and is a word over the alphabet |
| Validators.SanitizeIdempotent | src/utils/validators.py:102-108 | sanitising a sanitised symbol gives it back: `sanitize(sanitize(x)) == sanitize(x)` |
| Validators.SanitizeKeepsValidWords | src/utils/validators.py:98-110 | a word over the alphabet of length 2..20 sanitises to itself |
| Validators.CleanOfWord | src/utils/validators.py:102-108 | stripping, upper-casing and filtering a word over the alphabet gives the word back |
| Validators.SanitizeExample | src/utils/validators.py:102-108 | `" m&m "` sanitises to `"M&M"` |
| Validators.ValidateSymbolExamples | src/utils/validators.py:23-29 | `"A"` is too short, `"A B"` has a space, and `"AB\n"` passes because `$` matches before a final newline |
| Validators.ToFloat | src/utils/validators.py:62-65 | numbers convert to themselves, `None` and dictionaries raise, and a string is read as `float()` reads it |
| Validators.ValidateScore | src/utils/validators.py:50-65 | for a number, or a string that `float()` reads as x, true exactly when `min <= x <= max`; false when `float()` raises |
| Validators.ValidatePercentage | src/utils/validators.py:68-85 | for a number, or a string that `float()` reads as x, true exactly when x lies in [0, 100], or in [-100, 100] when negatives are allowed; false when `float()` raises |
| Validators.ValidateMarketCap | src/utils/validators.py:113-126 | for a number, or a string that `float()` reads as x, true exactly when x is non-negative; false when `float()` raises |
| Validators.ValidatePrice | src/utils/validators.py:129-142 | for a number, or a string that `float()` reads as x, true exactly when x is positive; false when `float()` raises |
| Validators.ValidationInclusions | src/utils/validators.py:68-142 | a valid price is a valid market cap; an unsigned percentage is a signed one; a signed percentage is exactly a score in [-100, 100] |
| Validators.ValidateStringExamples | src/utils/validators.py:129-142 | `"1e3"` is a valid price and `"-5"` is not; `"abc"` is not a valid market cap |
| PyStrings.ParseInt | config/config.py:59 | `int()` succeeds exactly when the stripped text, less one leading sign, is a non-empty run of digits |
| PyStrings.ParseDecimal | src/utils/validators.py:63 | a decimal mantissa reads only from digits and a point, never to a negative value, and a run of digits reads as its value |
| PyStrings.ExponentMark | src/utils/validators.py:63 | the first `e` or `E` of the text, none exactly when there is none |
| PyStrings.Scaled | src/utils/validators.py:63 | a mantissa times ten to a positive power, or divided by it for a negative one |
| PyStrings.ParseUnsigned | src/utils/validators.py:63 | without an exponent mark the decimal reading; with one, a value exactly when the mantissa reads and the exponent is optionally signed digits, and then the mantissa scaled by that power of ten; a run of digits reads as its value |
| PyStrings.ParseFloat | src/utils/validators.py:63 | `float()` reads nothing from blank text |
| PyStrings.ParseFloatExtendsInt | src/utils/validators.py:63 | every text `int()` reads, `float()` reads to the same value |
| PyStrings.ParseThousand | src/utils/validators.py:63 | `"1e3"` reads as 1000 |
| PyStrings.ParseQuarter | src/utils/validators.py:63 | `"2.5E-1"` reads as 0.25 |
| PyStrings.ParseBareExponentFails | src/utils/validators.py:63 | `"e3"` and `"1e"` raise `ValueError` |
| PyStrings.ParseMinusFive | src/utils/validators.py:63 | `"-5"` reads as -5 |
| PyStrings.ParseWordFails | src/utils/validators.py:63 | `"abc"` raises `ValueError` |
| FundamentalAnalyzer.AnalyzePe | src/analyzers/fundamental_analyzer.py:95-130 | score +1 exactly for `0 < pe < pe_low`, 0 exactly for `pe <= 0` or `pe_low <= pe < pe_high`, -1 exactly for a positive P/E at or above both thresholds; `N/A` exactly for `pe <= 0` |
| FundamentalAnalyzer.AnalyzeRoe | src/analyzers/fundamental_analyzer.py:132-159 | score +1 exactly at or above `roe_good`, 0 exactly strictly between the thresholds, -1 exactly at or below `roe_poor` below `roe_good` |
| FundamentalAnalyzer.AnalyzeDebt | src/analyzers/fundamental_analyzer.py:161-196 | score +0.5 exactly for `0 <= d < debt_low`, 0 exactly for a negative ratio or `debt_low <= d < debt_high`, -0.5 exactly at or above both; `N/A` exactly for a negative ratio |
| FundamentalAnalyzer.AnalyzePb | src/analyzers/fundamental_analyzer.py:198-233 | score +0.5 exactly for `0 < pb < pb_low`, 0 exactly for `pb <= 0` or `pb_low <= pb < pb_high`, -0.5 exactly at or above both; `N/A` exactly for `pb <= 0` |
| FundamentalAnalyzer.GetQualityRating | src/analyzers/fundamental_analyzer.py:235-246 | `EXCELLENT` exactly from 0.75, `FAIR` exactly on [-0.25, 0.25), `VERY_POOR` exactly below -0.75 |
| FundamentalAnalyzer.QualityRatingMonotone | src/analyzers/fundamental_analyzer.py:235-246 | a higher quality score never gets a worse rating |
| FundamentalAnalyzer.NumberField | src/analyzers/fundamental_analyzer.py:63-66 | `get(key, 0)`: a missing key reads as 0; a present value that is not a number is an error |
| FundamentalAnalyzer.Analyze | src/analyzers/fundamental_analyzer.py:57-93 | `None` for a missing or empty dictionary, and otherwise exactly when one of the four ratios is not a number; each sub-assessment is its analyzer applied to the ratio read with default 0; the quality score is their mean, lies in [-0.75, 0.75] and is rated by the rating rule, never `VERY_POOR`; market cap, sector and industry are read with their defaults |
| FundamentalAnalyzer.ExcellentNeedsBestBands | src/analyzers/fundamental_analyzer.py:69-77 | an `EXCELLENT` rating needs every ratio in its best band |
| FundamentalAnalyzer.MissingRoeAndDebtScores | src/analyzers/fundamental_analyzer.py:63-64 | with the default thresholds, a missing ROE scores -1 and a missing debt-to-equity scores +0.5 |
| TechnicalAnalyzer.Alpha | src/analyzers/technical_analyzer.py:164 | the `span=period` smoothing factor `2 / (period + 1)` lies in (0, 1] |
| TechnicalAnalyzer.EmaSeries | src/analyzers/technical_analyzer.py:164 | the `adjust=False` recurrence: the first value is the first price, and each later one is `alpha * price + (1 - alpha) * previous` |
| TechnicalAnalyzer.EmaOfConstant | src/analyzers/technical_analyzer.py:164-165 | the EMA of a constant series is that constant |
| TechnicalAnalyzer.EmaWithinRange | src/analyzers/technical_analyzer.py:164-165 | the EMA stays within the range of the prices |
| TechnicalAnalyzer.EmaValue | src/analyzers/technical_analyzer.py:158-168 | `None` exactly with fewer rows than the period; otherwise the last EMA value, between the smallest and largest price, and equal to the price of a flat series |
| TechnicalAnalyzer.ComputeEma | src/analyzers/technical_analyzer.py:164-165 | the EMA loop computes the same value as the recurrence |
| TechnicalAnalyzer.SlopeLookback | src/analyzers/technical_analyzer.py:201 | `weeks if weeks else days if days else 5`: at least 1, the weeks when given, else the days when given |
| TechnicalAnalyzer.SlopeStart | src/analyzers/technical_analyzer.py:202-205 | the lookback, clipped to the series length, gives an index inside the series |
| TechnicalAnalyzer.EmaSlope | src/analyzers/technical_analyzer.py:192-209 | 0 with fewer than two points; otherwise the percentage change of the EMA from the value `lookback` points back, positive exactly when the EMA rose from a positive start value and negative exactly when it fell from one; 0 from a start value that is not positive |
| TechnicalAnalyzer.FlatHistoryHasNoSlope | src/analyzers/technical_analyzer.py:192-209 | a flat positive history has slope 0 |
| TechnicalAnalyzer.CompareWithEma | src/analyzers/technical_analyzer.py:51-58 | an absent or zero EMA counts as not above, with difference 0; against a positive EMA, above exactly when the difference is positive |
| TechnicalAnalyzer.ClassifyStrength | src/analyzers/technical_analyzer.py:68-76 | `VERY_STRONG` exactly when both are above by more than 5%, `STRONG` when both are above otherwise, `WEAK` exactly when one is above, `DOWNTREND` exactly when none is |
| TechnicalAnalyzer.ClassifyOverall | src/analyzers/technical_analyzer.py:83-90 | `STRONG_UPTREND` exactly when both are above with positive slopes, `UPTREND` when both are above otherwise, `WEAK_UPTREND` exactly when only the daily one is above, `DOWNTREND` exactly when the daily one is not |
| TechnicalAnalyzer.ClassifySlope | src/analyzers/technical_analyzer.py:117 | `RISING` exactly above 2, `FALLING` exactly below -2, `FLAT` otherwise |
| TechnicalAnalyzer.Analyze | src/analyzers/technical_analyzer.py:42-125 | `None` exactly for an empty history; the price is the last close; each timeframe is the last close compared with that timeframe's EMA, and a timeframe shorter than its period is not above; the slopes are the EMA slopes over 20 days and 4 weeks; the alignment counts the timeframes above, at most 2; strength, overall trend and slope trend are the classifications of those figures |
| StockScorer.DailyBand | src/scorers/stock_scorer.py:125-135 | 2 exactly on [0, 3], 1.5 on (3, 5], 1 on (5, 8], 0.5 on (8, 15], and 0.25 for a negative difference or one past 15 |
| StockScorer.WeeklyBand | src/scorers/stock_scorer.py:142-152 | 2 exactly on [0, 5], 1.5 on (5, 10], 1 on (10, 20], 0.5 on (20, 30], and 0.25 for a negative difference or one past 30 |
| StockScorer.TechnicalScore | src/scorers/stock_scorer.py:116-154 | in [0, 4]; 0 without an analysis and exactly when neither timeframe is above; a timeframe below its EMA adds nothing, one above adds its band, so with both above the score is the sum of the two bands and at least 0.5 |
| StockScorer.FundamentalScore | src/scorers/stock_scorer.py:162-168 | 0 without an analysis; otherwise twice the quality score, so it has that score's sign |
| StockScorer.FundamentalScoreBound | src/scorers/stock_scorer.py:162-168 | over the fundamental analyzer's output the score lies in [-1.5, 1.5] |
| StockScorer.SpikePoints | src/scorers/stock_scorer.py:192-201 | no points exactly without a spike; with one, 2 from ratio 3, 1.5 from ratio 2, else 1 |
| StockScorer.PctPoints | src/scorers/stock_scorer.py:204-209 | 1 exactly above 50%, 0.5 exactly on (35, 50], 0 otherwise |
| StockScorer.DeliveryScore | src/scorers/stock_scorer.py:186-211 | in [0, 3]; 0 without data; the spike tier plus the percentage points; 3 exactly for a spike of ratio 3 or more with over 50% delivery |
| StockScorer.Clamp | src/scorers/stock_scorer.py:63 | the result is the value itself, the lower bound or the upper bound; it lies within the bounds, and is the value whenever that is within them |
| StockScorer.ClampIdempotent | src/scorers/stock_scorer.py:63 | clamping twice is clamping once |
| StockScorer.GenerateSignal | src/scorers/stock_scorer.py:213-228 | BUY exactly from the buy threshold, HOLD exactly from `hold_min` below it, AVOID otherwise; `hold_max` plays no part |
| StockScorer.SignalMonotone | src/scorers/stock_scorer.py:213-228 | a higher score never gets a weaker signal |
| StockScorer.CalculateScore | src/scorers/stock_scorer.py:55-85 | the components are the three sub-scores; the total is their sum clamped to [min, max], and the sum itself when it already lies there; the signal is that of the total |
| StockScorer.NothingToScore | src/scorers/stock_scorer.py:116-117 | with all three analyses missing, every score is 0 and the signal is AVOID |
| StockScorer.LowerClampNeverBinds | src/scorers/stock_scorer.py:57-63 | over the analyzers' outputs the sum lies in [-1.5, 8.5], so under the defaults only the upper clamp at 5 can bind |
| StockScorer.SignalExamples | src/scorers/stock_scorer.py:213-228 | with the default thresholds, 3.0 is BUY, 2.9 and 1.0 are HOLD, 0.5 is AVOID, and a 7.5 sum clamps to 5 |
| Calendar.WeekendNeighbours | src/data_fetchers/delivery_fetcher.py:289-290 | the day before a Saturday is a trading day; for a Sunday it takes two steps back |
| Calendar.TradingDayAtOrBefore | src/data_fetchers/delivery_fetcher.py:289-290 | the latest weekday at or before a day: at most two days back, with no weekday skipped in between |
| Calendar.ThreeDaysHoldATradingDay | src/data_fetchers/delivery_fetcher.py:289-290 | any three consecutive days include a weekday |
| DeliveryFetcher.PreviousTradingDay | src/data_fetchers/delivery_fetcher.py:281-292 | a weekday one to three days before `now`, with no weekday skipped in between |
| DeliveryFetcher.FetchDeliveryData | src/data_fetchers/delivery_fetcher.py:79-109 | a cached day is served from the cache; a fresh table is stored under its day (the previous trading day when none is given); a miss without a table leaves the cache unchanged; stored entries are never altered |
| DeliveryFetcher.FetchDayFacts | src/data_fetchers/delivery_fetcher.py:79-109 | after fetching a day, the day is cached exactly when a table came back, which is exactly when it was cached before or the download had rows; no other day is added |
| DeliveryFetcher.CacheHitIgnoresDownload | src/data_fetchers/delivery_fetcher.py:92-94 | a cache hit returns the cached table whatever the download would give |
| DeliveryFetcher.SecondFetchIsHit | src/data_fetchers/delivery_fetcher.py:92-100 | fetching a day again returns the first answer and leaves the cache as it is |
| DeliveryFetcher.EmptyDownloadNotCached | src/data_fetchers/delivery_fetcher.py:96-104 | an empty or failed download returns nothing and is not stored |
| DeliveryFetcher.WarmupDates | src/data_fetchers/delivery_fetcher.py:46-55 | at most `days` dates from at most `3 * days` examined days, all weekdays, strictly descending from the previous trading day, with every weekday in the examined window collected; fewer dates only when the examination budget ran out |
| DeliveryFetcher.WarmupCache | src/data_fetchers/delivery_fetcher.py:35-76 | every cached day stays; a new day is one of the dates; a date ends up cached exactly when it was cached or downloaded with rows; `successful` counts the cached dates |
| DeliveryFetcher.FetchAll | src/data_fetchers/delivery_fetcher.py:57-72 | fetching strictly descending dates one by one keeps every cached day, adds only listed dates, caches a date exactly when it was cached or downloaded with rows, and counts the cached dates |
| DeliveryFetcher.CountCachedUnchanged | src/data_fetchers/delivery_fetcher.py:64-71 | caching a day outside the date list does not change the success count |
| DeliveryFetcher.ConsultedDays | src/data_fetchers/delivery_fetcher.py:197 | the `days` newest cached days, newest first; every cached day left out is older than all of them |
| DeliveryFetcher.FirstRowIndex | src/data_fetchers/delivery_fetcher.py:200-202 | the index of the first row for the symbol, or none exactly when no row has it |
| DeliveryFetcher.CollectRecords | src/data_fetchers/delivery_fetcher.py:196-207 | one record per consulted day that has a row for the symbol, kept newest first; empty exactly when no consulted day has such a row |
| DeliveryFetcher.PositiveValues | src/data_fetchers/delivery_fetcher.py:213-214 | only positive values are kept; all of them when all are positive, none when none is |
| DeliveryFetcher.CalculateTrend | src/data_fetchers/delivery_fetcher.py:263-279 | `insufficient_data` exactly below two values; `rising` exactly when the second-half mean exceeds a positive first-half mean by more than 5%, `falling` exactly when it is more than 5% below it; a NaN makes the trend `stable` |
| DeliveryFetcher.QtySpike | src/data_fetchers/delivery_fetcher.py:220-231 | the latest is the first quantity; the average is the mean; the baseline is the mean of the rest, or the average for one sample, which gives ratio 1; a spike is a ratio at or above the threshold |
| DeliveryFetcher.Summarize | src/data_fetchers/delivery_fetcher.py:209-261 | as written: no result exactly when no quantity is positive; otherwise the quantity figures of `QtySpike`, the newest positive percentage and its mean (0 when none), and the trend rule applied to the newest-first quantity and percentage lists as they are |
| DeliveryFetcher.SummarizeCorrected | src/data_fetchers/delivery_fetcher.py:209-279 | the corrected statistics: defined exactly when the written ones are, with every figure equal to theirs except the two trends, which read the newest-first lists in time order |
| DeliveryFetcher.SummaryTrendInverted | src/data_fetchers/delivery_fetcher.py:243-279 | with 40% yesterday and 60% today, the written statistics report a falling percentage trend and the corrected ones a rising trend; the equal quantities are stable |
| DeliveryFetcher.FetchDeliveryTrend | src/data_fetchers/delivery_fetcher.py:186-261 | no trend for a symbol that does not sanitise, an empty cache, or no matching row in the consulted days; otherwise the written statistics of the matching rows under the sanitised symbol, with between 1 and `days` data points |
| DeliveryFetcher.BaselinePositive | src/data_fetchers/delivery_fetcher.py:224-227 | the mean and the baseline of positive quantities are positive |
| DeliveryFetcher.FetchDeliveryTrendWarm | src/data_fetchers/delivery_fetcher.py:186-194 | warm-up runs only when it has not run and fewer than `days` days are cached, and then marks itself complete; cached days stay; the trend is computed over the resulting cache |
| DeliveryFetcher.ClearCache | src/data_fetchers/delivery_fetcher.py:294-296 | the cache is empty |
| DeliveryFetcher.ClearedCacheHasNoTrend | src/data_fetchers/delivery_fetcher.py:294-296 | after clearing, no symbol has a trend |
| DeliveryFetcher.LatestPeakHasRatioAtLeastOne | src/data_fetchers/delivery_fetcher.py:226-232 | when the latest quantity is the largest, the spike ratio is at least 1 |
| DeliveryFetcher.SpikeExample | src/data_fetchers/delivery_fetcher.py:220-235 | a latest quantity of 300 over three days of 100 has ratio 3, a spike, and average 150 |
| DeliveryFetcher.TrendExamples | src/data_fetchers/delivery_fetcher.py:263-279 | worked rising, falling, stable, NaN and single-value trends |
| DeliveryFetcher.PeakOverBaseline | src/data_fetchers/delivery_fetcher.py:220-231 | when the latest quantity is the largest, the baseline is positive and at most the latest quantity |
| DeliveryFetcher.TrendOfNewestFirst | src/data_fetchers/delivery_fetcher.py:256-279 | the corrected reading of a newest-first history: insufficient data exactly with fewer than two values, otherwise the rule applied oldest first |
| DeliveryFetcher.NewestFirstReadsInTimeOrder | src/data_fetchers/delivery_fetcher.py:263-279 | a history listed newest first gets the trend the rule gives it in time order |
| DeliveryFetcher.TwoDayTrends | src/data_fetchers/delivery_fetcher.py:256-279 | for two positive days, in time order rising exactly when the newer exceeds the older by more than 5% and falling exactly when it is more than 5% below; the rule on the newest-first list swaps the two days |
| DeliveryFetcher.TrendInvertedAsWritten | src/data_fetchers/delivery_fetcher.py:256-279 | 40% yesterday and 60% today is reported falling by the code as written and is rising in time order |
| Retry.SimpleRetry | src/utils/retry.py:75-90 | linear mode with the given attempts and delay and no callback: every sleep is the delay |
| Retry.RetryWithBackoff | src/utils/retry.py:35-69 | no call and a RuntimeError exactly when `max_attempts <= 0`; otherwise 1 to `max_attempts` calls, one sleep fewer than calls, following the delay schedule; every call before the last failed with a listed exception; the last call's value is returned, an unlisted error propagates at once, and a listed one is re-raised only after `max_attempts` calls; the callback fires before each sleep |
| Retry.ExponentialClosedForm | src/utils/retry.py:37-64 | with a non-negative cap, every delay after the first is `min(base_delay * 2^i, max_delay)` |
| Retry.DelaysNonDecreasing | src/utils/retry.py:37-64 | when `0 <= base_delay <= max_delay`, the delays never decrease and stay within [base_delay, max_delay] |
| Retry.FirstDelayNotCapped | src/utils/retry.py:37 | with `base_delay` 100 and `max_delay` 60, the first sleep is 100 and the second 60 |
| Retry.DefaultSchedule | src/utils/retry.py:12-64 | the default sleeps are 2 and 4 seconds, and the sixth is capped at 60 |
| Config.Walk | config/config.py:40-49 | a walk that finds something finds a non-`None` value; starting from a non-dictionary it finds nothing |
| Config.WalkAppend | config/config.py:43-49 | walking a path is walking its first part and then the rest |
| Config.WalkOneStep | config/config.py:44-47 | a stored value that is not `None` is found even when it is falsy |
| Config.ReplaceChar | config/config.py:52 | every separator is replaced and nothing else changes |
| Config.JoinSplitReplaces | config/config.py:40-52 | joining the dot-split pieces with `_` replaces each dot with `_` |
| Config.Convert | config/config.py:56-62 | a bool reads as true exactly for `true`/`1`/`yes` in any case, and is checked before int; an int override is read by `int()` and a float one by `float()`, and an unreadable one is an error; any other stored type takes the text as it is |
| Config.GetValue | config/config.py:38-64 | the default when the walk fails; the stored value when the environment has no override; the converted override otherwise; an error only from a conversion |
| Config.GetValueAlongParts | config/config.py:40-64 | for a key built from dot-free parts, the walk follows exactly those parts |
| Config.DefaultNestedHit | config/config.py:91-96 | `scoring.signals.buy_threshold` is 3.0 in the default tree |
| Config.AppTreeMisses | config/config.py:44-49 | in the `app` section a missing key, and a path that continues through a string, find nothing |
| Config.DefaultMisses | config/config.py:44-49 | a missing key, and a path through a string, give the default |
| Config.EnvKeyExample | config/config.py:52 | `app.name` reads `APP_NAME` |
| Config.ConvertIntExamples | config/config.py:58-59 | `"20"` overrides an int to 20; `"x"` raises |
| Config.ConvertBoolExamples | config/config.py:56-62 | `"Yes"` is true, `"on"` is false, and a string setting takes the text |
| NseFetcher.LastTradingDay | src/data_fetchers/nse_fetcher.py:287-302 | a weekday at most three days back, with no weekday skipped; it is today exactly when today is a weekday at or after 16:00 |
| NseFetcher.FetchBhavcopy | src/data_fetchers/nse_fetcher.py:255-285 | a table exactly when one of the two sources gives a non-empty one, the archives winning; never an empty table |
| NseFetcher.FetchMultipleBhavcopy | src/data_fetchers/nse_fetcher.py:352-382 | at most `days` tables from at most `3 * days` examined days; the requested days are exactly the weekdays of the examined window, newest first; each stored table is what the fetch gave for its day; fewer tables only when the budget ran out |
| NseFetcher.FirstPresent | src/data_fetchers/nse_fetcher.py:420-433 | the first candidate that is a column; none exactly when no candidate is |
| NseFetcher.SymbolColumn | src/data_fetchers/nse_fetcher.py:397-404 | the first column named SYMBOL or SYMB in any case; none exactly when there is none |
| NseFetcher.FirstMatchingRow | src/data_fetchers/nse_fetcher.py:407-412 | the first row whose symbol matches ignoring case; none exactly when no row does |
| NseFetcher.Pick | src/data_fetchers/nse_fetcher.py:420-433 | the row's value in the first present candidate column; `None` when no candidate is present |
| NseFetcher.ComputedPercent | src/data_fetchers/nse_fetcher.py:436-437 | no percentage exactly when a quantity is falsy or the traded quantity is not positive; otherwise delivered / traded * 100 |
| NseFetcher.GetDeliveryData | src/data_fetchers/nse_fetcher.py:384-450 | `None` without a symbol column or a matching row; otherwise the first matching row's quantities and its stated percentage, or the computed one when none is stated; `None` otherwise only when the percentage stays missing or cannot be converted |
| NseFetcher.CandidateOrderExamples | src/data_fetchers/nse_fetcher.py:420-433 | DELIV_QTY wins over NO_OF_TRADES, which wins over QTY_PER_TRADE |
| NseFetcher.DeliveryExample | src/data_fetchers/nse_fetcher.py:384-446 | a lower-case `symbol` column matches, and 400 delivered of 1000 traded gives 40% |
| NseFetcher.LineSymbol | src/data_fetchers/nse_fetcher.py:205-209 | a kept symbol is non-empty, stripped and alphanumeric once `&` and `-` are removed |
| NseFetcher.KeptSymbols | src/data_fetchers/nse_fetcher.py:204-209 | only kept symbols, at most one per line |
| NseFetcher.ParseEquityList | src/data_fetchers/nse_fetcher.py:193-213 | an error for fewer than two lines or when nothing is kept; otherwise kept symbols only, fewer than the lines since the header is skipped |
| NseFetcher.PlainSymbolKept | src/data_fetchers/nse_fetcher.py:205-209 | an alphanumeric line is kept as it is |
| NseFetcher.KeptPlainSymbols | src/data_fetchers/nse_fetcher.py:204-209 | lines of alphanumeric symbols are all kept, in order |
| NseFetcher.EquityListRoundTrip | src/data_fetchers/nse_fetcher.py:193-213 | a header followed by alphanumeric symbols parses back to those symbols |
| NseFetcher.LoadFromCache | src/data_fetchers/nse_fetcher.py:118-160 | nothing without a file, symbols or stamp; the stored symbols when the age is at most 24 hours or the age is ignored; a malformed stamp loads only when both ignored and silent |
| NseFetcher.CacheAgeBoundary | src/data_fetchers/nse_fetcher.py:143-148 | an entry exactly 24 hours old is used, one a second older is not unless the age is ignored |
| NseFetcher.FetchAllNseSymbols | src/data_fetchers/nse_fetcher.py:58-116 | the source order is fresh cache, equity list, market data, then any-age cache unless refreshing, then `[]`; each later source is used only when the earlier ones failed or gave nothing; only network results are saved |
| NseFetcher.OfflineFallback | src/data_fetchers/nse_fetcher.py:99-116 | offline, an expired cache is used unless a refresh was forced, which gives `[]` |
| NseFetcher.DeliveryExampleLookups | src/data_fetchers/nse_fetcher.py:384-450 | in a table with a lower-case `symbol` column, `abc` matches `ABC`, the quantities 400 and 1000 are read from `DELIV_QTY` and `TTL_TRD_QNTY`, and the computed percentage is 40 |
| AsyncYFinanceFetcher.FundKey | src/data_fetchers/async_yfinance_fetcher.py:75 | a fundamentals key starts with `fundamentals_`, never with `price_` |
| AsyncYFinanceFetcher.PriceKey | src/data_fetchers/async_yfinance_fetcher.py:186 | a price key starts with `price_`, never with `fundamentals_` |
| AsyncYFinanceFetcher.FreshEntryValid | src/data_fetchers/async_yfinance_fetcher.py:289-295 | an entry stamped now is valid exactly when the TTL is positive: validity is the strict test `now - stamp < ttl` |
| AsyncYFinanceFetcher.Store | src/data_fetchers/async_yfinance_fetcher.py:91-93 | storing adds exactly the key, and each key keeps the kind of entry its prefix names |
| AsyncYFinanceFetcher.TimesHundred | src/data_fetchers/async_yfinance_fetcher.py:117 | a number is scaled by 100 |
| AsyncYFinanceFetcher.DividedBy | src/data_fetchers/async_yfinance_fetcher.py:115-118 | a number divides to a float; anything else raises |
| AsyncYFinanceFetcher.ScaledOrZero | src/data_fetchers/async_yfinance_fetcher.py:115-118 | a missing or falsy value becomes 0; otherwise the scaling's result |
| AsyncYFinanceFetcher.ToDict | src/analyzers/fundamental_analyzer.py:63-66 | the record's fields are the keys the fundamental analyzer reads |
| AsyncYFinanceFetcher.NormalizeFundamentals | src/data_fetchers/async_yfinance_fetcher.py:100-123 | nothing without a `symbol` entry; market cap ÷ 1e7, ROE × 100 and D/E ÷ 100, each 0 when missing or falsy; the name falls back from `longName` to `shortName` to the symbol; the other fields are read with their defaults |
| AsyncYFinanceFetcher.NumericInfoNormalizes | src/data_fetchers/async_yfinance_fetcher.py:107-123 | numeric scale fields always normalise, and a missing ROE reads as 0 |
| AsyncYFinanceFetcher.NormalizeExample | src/data_fetchers/async_yfinance_fetcher.py:113-118 | a market cap of 2e11 is 20000 crores, an ROE of 0.18 is 18%, a D/E of 45 is 0.45, and the name falls back to the symbol |
| AsyncYFinanceFetcher.FetchFundamentals | src/data_fetchers/async_yfinance_fetcher.py:59-98 | an unsanitisable symbol gives nothing, with no call and no cache change; a valid cache entry is returned with no call; otherwise one call, whose result is stored with the time stamp only when there is one |
| AsyncYFinanceFetcher.FundKeyInjective | src/data_fetchers/async_yfinance_fetcher.py:75 | different symbols have different fundamentals keys |
| AsyncYFinanceFetcher.FundamentalsCacheTransparent | src/data_fetchers/async_yfinance_fetcher.py:59-98 | over a coherent cache, a fetch returns what a direct call would, and the cache stays coherent |
| AsyncYFinanceFetcher.CoherentAfterStore | src/data_fetchers/async_yfinance_fetcher.py:83-93 | storing a symbol's normalised answer under its key keeps every stored fundamentals entry equal to the normalised answer for its own symbol |
| AsyncYFinanceFetcher.SecondFundamentalsFetchIsHit | src/data_fetchers/async_yfinance_fetcher.py:75-77 | a second fetch within the TTL makes no call and returns the first answer |
| AsyncYFinanceFetcher.DefaultPeriod | src/data_fetchers/async_yfinance_fetcher.py:175-176 | the default period is the configured day count in digits followed by `d` |
| AsyncYFinanceFetcher.FetchPriceHistory | src/data_fetchers/async_yfinance_fetcher.py:159-212 | like the fundamentals fetch, keyed by symbol, period and interval; a called fetch returns and stores a table only when it is non-empty |
| AsyncYFinanceFetcher.EmptyHistoryNotCached | src/data_fetchers/async_yfinance_fetcher.py:202-208 | an empty price table is never stored or returned |
| AsyncYFinanceFetcher.FetchCompleteData | src/data_fetchers/async_yfinance_fetcher.py:241-266 | both fetches for one symbol; an unsanitisable symbol gives neither |
| AsyncYFinanceFetcher.FetchFundamentalsBatch | src/data_fetchers/async_yfinance_fetcher.py:38-57 | a map keyed by exactly the input symbols, with nothing for an unsanitisable one |
| AsyncYFinanceFetcher.FundamentalsBatchTransparent | src/data_fetchers/async_yfinance_fetcher.py:38-57 | over a coherent cache, every valid symbol maps to the normalised direct answer, and the cache stays coherent |
| AsyncYFinanceFetcher.FetchPriceHistoryBatch | src/data_fetchers/async_yfinance_fetcher.py:131-157 | a map keyed by exactly the input symbols, with nothing for an unsanitisable one |
| AsyncYFinanceFetcher.FetchCompleteDataBatch | src/data_fetchers/async_yfinance_fetcher.py:268-287 | a map keyed by exactly the input symbols, with a `None`/`None` pair for an unsanitisable one |
| AsyncYFinanceFetcher.ClearCache | src/data_fetchers/async_yfinance_fetcher.py:297-301 | both maps are empty and no key is valid afterwards |
| AsyncYFinanceFetcher.GetCacheStats | src/data_fetchers/async_yfinance_fetcher.py:303-309 | the total is the number of entries; the fundamentals count is the number of keys starting `fundamentals_` and the price count the number starting `price_`; fundamentals are exactly the fundamentals entries, and the two counts add up to the total |
| AsyncYFinanceFetcher.KeysWith | src/data_fetchers/async_yfinance_fetcher.py:306-307 | exactly the cache keys that start with the prefix |
| AsyncPipeline.LimitSymbols | src/async_pipeline.py:95-96 | a missing or zero limit keeps every symbol; a positive one keeps the first `limit` (or all, if fewer) and the result is always a prefix |
| AsyncPipeline.Batches | src/async_pipeline.py:116-118 | a zero batch size raises, a negative one gives no batch; a positive one gives non-empty batches of at most that size, all but the last full, that concatenate back to the input |
| AsyncPipeline.AnalyzeBatch | src/async_pipeline.py:153-161 | one answer per symbol, in order; an answer is present exactly when the asyncio task returned a row, and it is that row |
| AsyncPipeline.PartitionSizes | src/async_pipeline.py:122-129 | every processed symbol is counted once, as a result or as a failure |
| AsyncPipeline.FailedAreFailures | src/async_pipeline.py:127-129 | every failed symbol is an input whose analysis raised or gave nothing |
| AsyncPipeline.GatherBatch | src/async_pipeline.py:120-129 | one batch appends its rows and failures in order to those gathered so far |
| AsyncPipeline.FetchAll | src/async_pipeline.py:95-129 | with a positive worker count, results and failures are those of processing the limited symbols one by one in order, whatever the batching; zero workers raises; negative gives nothing |
| AsyncPipeline.AnalyzeStock | src/async_pipeline.py:163-286 | a row exists exactly for a sanitisable symbol with fundamentals and a non-empty price history; its symbol is the clean one; its price, EMA positions and alignment are the technical analysis's; its score, signal and three parts are those the scorer computes from the technical, fundamental and (when used) delivery analyses, the delivery trend being `fetch_delivery_trend(symbol, 90, 2.0)` over the fetcher's cache, so the score is in [-5, 5]; delivery columns copy the delivery trend, and are at their defaults without one |
| AsyncPipeline.ResultsTable | src/async_pipeline.py:61-65 | the table is a permutation of the results ordered by descending score |
| AsyncPipeline.BySignal | src/async_pipeline.py:294-303 | the rows with exactly that signal, and only those, each as many times as in the table; as many rows as the table has with that signal |
| AsyncPipeline.GetBySignal | src/async_pipeline.py:297-303 | every row with the signal and only such rows, each as many times as in the results, ordered by descending score; as many rows as the results have with that signal |
| AsyncPipeline.BySignalKeepsOrder | src/async_pipeline.py:303 | filtering a score-ordered table keeps it score-ordered |
| AsyncPipeline.GetTopBuys | src/async_pipeline.py:288-295 | BUY rows of the results, no row more often than there, ordered by descending score; `min(n, number of BUY rows)` of them for `n >= 0`, all but the last `-n` for negative `n`; no BUY row left out scores above a kept one |
| AsyncPipeline.TopBuysOutrank | src/async_pipeline.py:294 | a prefix of the score-ordered BUY rows is sorted, draws on the results, and outscores every BUY row it leaves out |
| AsyncPipeline.SortedPrefixOutranks | src/async_pipeline.py:294 | the first `k` rows of a score-ordered table outscore the rows after them |
| AsyncPipeline.SignalCountsAddUp | src/async_pipeline.py:360-362 | the BUY, HOLD and AVOID counts add up to the row count |
| AsyncPipeline.GetSummary | src/async_pipeline.py:353-369 | empty exactly when there are no results; the total and the BUY, HOLD and AVOID counts are those of the rows and add up; the average is the mean score and does not exceed the top score, which is the largest score and is attained; failures and distinct sectors are counted |
| AsyncPipeline.SectorsBound | src/async_pipeline.py:367 | there are no more distinct sectors than rows |
| AsyncPipeline.SummaryIgnoresOrder | src/async_pipeline.py:353-364 | rows holding the same multiset have the same signal counts and score total, so summarising the score-ordered table is summarising the results |
| AsyncPipeline.SectorsIgnoreOrder | src/async_pipeline.py:367 | rows holding the same multiset have the same distinct sectors |
| DataPipeline.EmaPoints | data_pipeline.py:227-238 | +2 exactly when price and EMA are known, the price is above and more than 5% over; +1 when above by at most 5%; 0 when either is missing or the price is not above |
| DataPipeline.SlopePoints | data_pipeline.py:240-248 | +1 exactly for a known slope above 2, -1 below -2, 0 when missing or within [-2, 2] |
| DataPipeline.PePoints | data_pipeline.py:253-258 | +1 exactly for a known P/E strictly between 0 and 20, -1 exactly above 40 |
| DataPipeline.RoePoints | data_pipeline.py:260-266 | the ROE fraction is compared as a percentage: +1 exactly above 15%, -1 exactly below 0% |
| DataPipeline.DebtPoints | data_pipeline.py:268-273 | +0.5 exactly for D/E below 0.5, -0.5 exactly above 2 |
| DataPipeline.FundamentalPoints | data_pipeline.py:250-276 | the fundamental part lies in [-2.5, 2.5] and is 0 when all three ratios are missing |
| DataPipeline.DeliveryPoints | data_pipeline.py:279-289 | +2 exactly above 50%, +1 exactly in (35, 50], 0 when missing or at most 35 |
| DataPipeline.TrendPoints | data_pipeline.py:291-296 | +1 exactly when the delivery trend is rising |
| DataPipeline.RawScore | data_pipeline.py:224-296 | the uncapped sum lies in [-3.5, 8.5] |
| DataPipeline.Cap | data_pipeline.py:299 | the result is in [-5, 5], equals an in-range input, and is the nearer bound otherwise |
| DataPipeline.Score | data_pipeline.py:224-299 | every score lies in [-5, 5] |
| DataPipeline.LowerCapNeverBinds | data_pipeline.py:224-299 | the score is the raw sum cut at 5 and is never below -3.5, so the lower cap never applies |
| DataPipeline.Signal | data_pipeline.py:301-307 | BUY exactly from 3, HOLD exactly in [1, 3), AVOID exactly below 1 |
| DataPipeline.SameSignalsAsScorer | data_pipeline.py:301-307 | the pipeline's signal bands agree with the default scorer's for every score |
| DataPipeline.CalculateScores | data_pipeline.py:207-315 | one score and signal per row, in order, each the row's score and its band |
| DataPipeline.CappedExample | data_pipeline.py:224-307 | a row strong on every component sums to 7.5, is capped at 5 and is a BUY |
| DataPipeline.MissingDataExample | data_pipeline.py:224-307 | a row with nothing known scores 0 and is AVOID |
| DataPipeline.SignalExamples | data_pipeline.py:299-307 | the signal at 5, 3.5, 3, 2, 1.5, 1, 0.5, 0 and -2, and the cap of ±10 |
| DataPipeline.TrendOf | data_pipeline.py:195-203 | insufficient data exactly with fewer than two values; rising exactly when the last exceeds 1.05 × the first; falling exactly when not rising and the last is below 0.95 × the first |
| DataPipeline.PositiveStartBands | data_pipeline.py:195-201 | for a positive first value, falling and flat are decided by the 0.95 and 1.05 bands alone |
| DataPipeline.TrendOfEnds | data_pipeline.py:195-201 | only the first and last values decide the trend |
| DataPipeline.DaysAscending | data_pipeline.py:189 | the bhavcopy days, each once, in strictly increasing order |
| DataPipeline.Figures | data_pipeline.py:188-192 | one optional percentage per day, each that day's lookup |
| DataPipeline.CountSome | data_pipeline.py:191-192 | the number of days with a figure: none exactly when no day has one |
| DataPipeline.FirstIndex | data_pipeline.py:195-196 | the first day with a figure, with none before it; none exactly when no day has one |
| DataPipeline.LastIndex | data_pipeline.py:195-196 | the last day with a figure, with none after it; none exactly when no day has one |
| DataPipeline.Kept | data_pipeline.py:191-192 | the figures that are present, one per day with a figure, starting with the first one and ending with the last one |
| DataPipeline.TwoFiguresApart | data_pipeline.py:195 | at least two figures exactly when the first day with a figure comes strictly before the last one |
| DataPipeline.OneFigure | data_pipeline.py:195 | a single figure is both the first and the last; with any figure the first comes no later than the last |
| DataPipeline.KeptAll | data_pipeline.py:191-192 | when every day has a figure, the kept figures are all of them, in order |
| DataPipeline.FiguresTrend | data_pipeline.py:195-203 | insufficient data below two figures; otherwise the rule on the first and the last figure; with every day known, the first and last day |
| DataPipeline.PctsOn | data_pipeline.py:188-193 | one figure for each day that has one, in day order: as many as there are days with a figure, starting with the first such day's and ending with the last such day's; one per day when every day has one |
| DataPipeline.CalculateDeliveryTrend | data_pipeline.py:184-205 | insufficient data when fewer than two days have a figure (so always with fewer than two days); otherwise the trend of the oldest day with a figure against the newest such day |
| DataPipeline.DeliveryTrendUniform | data_pipeline.py:184-205 | when no day has a figure the trend is insufficient data; with at least two days that all have one, it is the oldest against the newest day |
| DataPipeline.DeliveryTrendOfFound | data_pipeline.py:184-205 | the trend is the ±5% rule applied to the list of figures found on the days in ascending order, whichever days lack one |
| DataPipeline.FiguresTrendOfKept | data_pipeline.py:191-203 | the trend of optional figures is the rule applied to the figures kept |
| DataPipeline.TrendExamples | data_pipeline.py:195-203 | rising for 40 → 45, falling for 50 → 46, flat for 40 → 40.5, insufficient for one value |
| StockAnalyzer.WithSuffix | stock_analyzer.py:27-29 | a symbol without either suffix gets `.NS` appended; one that already ends in `.NS` or `.BO` is unchanged; either way the result ends in one of the two suffixes |
| StockAnalyzer.SuffixIdempotent | stock_analyzer.py:27-29 | adding the suffix twice is adding it once |
| StockAnalyzer.BaseSymbol | stock_analyzer.py:117 | removing the exchange suffixes never lengthens the symbol |
| StockAnalyzer.BaseOfSuffixed | stock_analyzer.py:27-117 | a plain name without a dot survives suffixing and suffix removal unchanged |
| StockAnalyzer.BseExample | stock_analyzer.py:27-117 | `TCS.BO` keeps its suffix and its base name is `TCS` |
| StockAnalyzer.RemoveAbsent | stock_analyzer.py:117 | `replace(p, '')` leaves a string unchanged when it lacks one of the characters of `p` |
| StockAnalyzer.SymbolColumn | stock_analyzer.py:120-124 | the first column whose upper-cased name is `SYMBOL`; none exactly when no column has that name |
| StockAnalyzer.SymbolRow | stock_analyzer.py:120-140 | nothing without a SYMBOL column; otherwise nothing exactly when no row's symbol matches the base name upper-cased, else a row of the table that matches |
| StockAnalyzer.DeliveryFrom | stock_analyzer.py:142-167 | figures exactly when both quantities are numbers and the traded one is positive; they keep both quantities and the percentage delivered / traded × 100 |
| StockAnalyzer.LoadDeliveryData | stock_analyzer.py:100-172 | nothing without a file or a matching row; otherwise the figures of the first matching row, read from the first present column of each candidate list |
| StockAnalyzer.RowPct | stock_analyzer.py:203-218 | a percentage exactly when the quantity rule accepts the row's truthy quantities, and it is that rule's value |
| StockAnalyzer.DayPct | stock_analyzer.py:186-220 | one bhavcopy's percentage: nothing for a missing file or symbol, else the matching row's percentage |
| StockAnalyzer.PickSkipsAbsent | stock_analyzer.py:148-214 | a candidate column missing from the table does not change which column is read |
| StockAnalyzer.LoadAgreesWithTrend | stock_analyzer.py:142-218 | when the table has none of the spaced column names, a loaded delivery with a non-zero deliverable quantity gives the trend rule the same percentage |
| StockAnalyzer.Present | stock_analyzer.py:217-218 | the known values in order; all of them when all are known |
| StockAnalyzer.DayPcts | stock_analyzer.py:186-220 | one optional percentage per bhavcopy, in order |
| StockAnalyzer.FirstThree | stock_analyzer.py:186 | the first three paths, or all when fewer |
| StockAnalyzer.AnalyzeDeliveryTrend | stock_analyzer.py:173-231 | no paths, or fewer than two, gives insufficient data |
| StockAnalyzer.TrendOfFullDays | stock_analyzer.py:186-231 | when each of the first three bhavcopies yields a percentage, the first is compared with the last of them by the ±5% rule |
| StockAnalyzer.OnlyFirstThreeRead | stock_analyzer.py:186 | bhavcopies after the third never change the trend |
| StockAnalyzer.InsufficientWhenFewValues | stock_analyzer.py:223-231 | the trend is insufficient data exactly when fewer than two of the first three bhavcopies yield a percentage |
| StockAnalyzer.PriceUsed | stock_analyzer.py:244-246 | the quote when present, else the last close; no price without a history; an empty history raises |
| StockAnalyzer.EmaPoints | stock_analyzer.py:248-256 | +1 exactly above the EMA, -1 exactly at or below, 0 exactly when either is unknown |
| StockAnalyzer.SlopePoints | stock_analyzer.py:259-266 | +1 exactly above 1%, -1 exactly below -1%, else 0 |
| StockAnalyzer.DeliveryPoints | stock_analyzer.py:270-276 | +1 exactly when delivery data exists and exceeds 35%, else 0 |
| StockAnalyzer.PePoints | stock_analyzer.py:280-288 | +0.5 exactly strictly between 0 and 25, -0.5 exactly above 40, else 0 |
| StockAnalyzer.RoePoints | stock_analyzer.py:292-301 | ROE as a percentage: +0.5 exactly above 15%, -0.5 exactly below 0%, else 0 |
| StockAnalyzer.RawScore | stock_analyzer.py:247-301 | the component sum lies in [-3, 4] |
| StockAnalyzer.Clamp | stock_analyzer.py:306-307 | the result is in [-2, 3], equals an in-range input, and is the nearer bound otherwise |
| StockAnalyzer.CalculateScore | stock_analyzer.py:233-309 | fails exactly when falling back on an empty history; otherwise the clamped component sum, in [-2, 3] |
| StockAnalyzer.ClampsBind | stock_analyzer.py:247-307 | the best inputs sum to 4 and score 3; the worst sum to -3 and score -2 |
| StockAnalyzer.PriceOnEmaIsBearish | stock_analyzer.py:250-256 | a price exactly on its EMA scores -1 |
| StockAnalyzer.GetVerdict | stock_analyzer.py:311-330 | INVEST/High exactly from 2, INVEST/Moderate in [1, 2), HOLD in [0, 1), AVOID/Moderate in [-1, 0), AVOID/High below -1 |
| StockAnalyzer.VerdictMonotone | stock_analyzer.py:321-330 | a higher score never gets a weaker verdict |
| StockAnalyzer.ClampMonotone | stock_analyzer.py:306-330 | raising the raw score never lowers the clamped score or the verdict |
| StockAnalyzer.BearishTrendNeverInvest | stock_analyzer.py:248-330 | a price at or below a falling EMA scores at most 0 and is never INVEST |
| StockAnalyzer.GradeOf | stock_analyzer.py:444-455 | no grade exactly with no criteria; otherwise A, B, C, D exactly from 80%, 60%, 40% and below 40% of criteria met |
| StockAnalyzer.FundamentalGrade | stock_analyzer.py:426-455 | a truthy P/E or ROE and a present D/E each count as a criterion; P/E in (0, 25), ROE above 0.15 and D/E below 1 meet it; points never exceed criteria |
| StockAnalyzer.GradeTable | stock_analyzer.py:444-455 | the grade for every reachable points/criteria pair |
| StockAnalyzer.ZeroRatiosExample | stock_analyzer.py:430-442 | a zero P/E is not a criterion, while a zero D/E is one and is met |
| StockScreener.NseTicker | stock_screener.py:66 | the ticker is the name followed by `.NS`, three characters longer |
| StockScreener.GetNiftyStocks | stock_screener.py:27-67 | one ticker per listed name, in order, each ending in `.NS` and starting with its name |
| StockScreener.TickerRoundTrip | stock_screener.py:300 | removing `.NS` from a listed ticker gives back a dot-free name |
| StockScreener.UniverseRepeatsVedl | stock_screener.py:32-63 | the list has 175 entries and names VEDL twice, so one ticker is screened twice |
| StockScreener.High52 | stock_screener.py:122 | the 52-week high is positive, is the high of one of the last 252 bars and is at least every one of them |
| StockScreener.Retracement | stock_screener.py:111-127 | a value exactly with at least 252 bars; it is the percentage change from the 52-week high to the last close and above -100 |
| StockScreener.RetracementNotPositive | stock_screener.py:118-127 | a last close at or below its bar's high gives a retracement of at most 0 |
| StockScreener.Returns | stock_screener.py:129-147 | missing exactly without data or with fewer than `months × 21` bars; for a whole number of months the percentage change of the close over `months × 21` rows |
| StockScreener.ReturnPositiveIff | stock_screener.py:140-147 | a return is positive exactly when the last close is above the close `months × 21` rows back |
| StockScreener.RelativeStrength | stock_screener.py:204-228 | missing exactly when either series is missing or too short; otherwise the stock's return minus the index's |
| StockScreener.MomentumScore | stock_screener.py:286-297 | without Sharpe or Sortino figures, positive returns and strength give a positive score |
| StockScreener.Truthy | stock_screener.py:304-305 | a ratio prints exactly when it is known and non-zero |
| StockScreener.Screen | stock_screener.py:249-308 | a row exactly when the stock passes every filter; it has no rank yet, the bare name, retracement ≥ -30, positive returns and strength, and the weighted score |
| StockScreener.Kept | stock_screener.py:249-308 | every passing stock's row, and only those, at most one per stock |
| StockScreener.RunMomentum | stock_screener.py:230-326 | nothing without the index; at most 20 rows, ranked 1..n by descending score, which are the top passing rows |
| Ranking.Numbered | stock_screener.py:319 | row `i` of the result is row `i` of the input with rank `i + 1` |
| Ranking.Unnumbered | stock_screener.py:319 | row `i` of the result is row `i` of the input with its rank cleared |
| StockScreener.MomentumSelection | stock_screener.py:313-319 | the result has min(20, n) of the n passing rows, each a passing row, and no left-out passing row scores above a listed one |
| StockScreener.ScoresPositiveWithoutRatios | stock_screener.py:255-297 | without Sharpe or Sortino figures every listed stock scores above 0 |
| StockScreener.IsEmaRising | stock_screener.py:349-366 | for a non-negative lookback, rising exactly when there are more than `lookback` values and the last exceeds the one `lookback` rows earlier |
| StockScreener.NearMeansSmallDistance | stock_screener.py:368-383 | for a positive EMA, the price is near exactly when its distance from the EMA is within ±tolerance × 100 percent |
| StockScreener.Emas | stock_screener.py:408 | the EMA column, one value per bar |
| StockScreener.ScreenEma | stock_screener.py:401-434 | a row exactly with at least 50 bars, a rising EMA and a price within 1% of it; the distance is in [-1, 1] and the five-day EMA change is known and positive |
| StockScreener.RunEma | stock_screener.py:385-441 | the rows of exactly the passing stocks, each within 1% of its EMA |
| HybridMomentumEma.EmaRising | hybrid_momentum_ema.py:232-237 | the loop's answer is the rising rule: none of the last five values present is at or below its predecessor |
| HybridMomentumEma.WindowStart | hybrid_momentum_ema.py:234-235 | the rule looks at the last six values, or all of a shorter series |
| HybridMomentumEma.RisingMeansIncreasing | hybrid_momentum_ema.py:232-237 | without NaN in the window, rising exactly when the last six values (or all of them) strictly increase |
| HybridMomentumEma.ChainIncreasing | hybrid_momentum_ema.py:234-236 | adjacent increases over the window make every later value exceed every earlier one |
| HybridMomentumEma.CalculateEmaSignals | hybrid_momentum_ema.py:214-262 | nothing for an empty series; otherwise the last EMA, the rising rule, the distance of the last close from the EMA when known, near exactly within ±1%, entry exactly when rising and near, exit exactly below -2%, and never entry and exit together |
| HybridMomentumEma.CompositeMonotone | hybrid_momentum_ema.py:187-208 | better figures never lower the composite score; the six-month return moves it by 0.4 per point and relative strength by 30 per unit |
| HybridMomentumEma.Candidates | hybrid_momentum_ema.py:292-316 | exactly the stocks with metrics whose retracement is not above 30%, a NaN retracement included since `NaN > 30` is false, each with its composite score and no rank |
| HybridMomentumEma.SelectTopStocks | hybrid_momentum_ema.py:270-326 | the corrected selection: empty when no stock passes; ranked 1..n by descending score; the top `top_n` candidates |
| Ranking.NumberedRoundTrip | hybrid_momentum_ema.py:322-323 | numbering rows drawn from an unranked pool and clearing the numbers again gives the rows back |
| HybridMomentumEma.TopSelection | hybrid_momentum_ema.py:318-323 | min(top_n, candidates) rows, each a candidate passing the retracement filter, and no candidate left out scores above one kept |
| HybridMomentumEma.SelectTopStocksAsWritten | hybrid_momentum_ema.py:317-319 | as written, the selection raises exactly when no stock passes the filter, and otherwise is the corrected selection |
| HybridMomentumEma.EmptySelectionRaises | hybrid_momentum_ema.py:297-319 | one stock 35% below its high makes the selection as written raise, while the corrected one is empty |
| HybridMomentumEma.ShortHistoryKept | hybrid_momentum_ema.py:297-299 | a stock whose 52-week high is NaN, for lack of a year of closes, passes the filter, while one 35% below its high is dropped |
| HybridMomentumEma.CorrectedAgreesWhenDefined | hybrid_momentum_ema.py:317-323 | whenever the written selection returns, the corrected one returns the same table |
| HybridMomentumEma.ApplyEmaFilter | hybrid_momentum_ema.py:329-366 | exactly the selected stocks whose signals exist and show an entry, each with its price, rank, score and signals |
| HybridMomentumEma.BuyPricesPositive | hybrid_momentum_ema.py:354-356 | the buy candidates carry the positive current price of a selected stock, and are selected stocks |
| HybridMomentumEma.Symbols | hybrid_momentum_ema.py:425-427 | the portfolio's symbols in insertion order |
| HybridMomentumEma.HeldValueNonneg | hybrid_momentum_ema.py:494-498 | positive positions at positive prices are worth at least 0 |
| HybridMomentumEma.PortfolioValue | hybrid_momentum_ema.py:493-498 | the month's value is at least the cash |
| HybridMomentumEma.ExitPositions | hybrid_momentum_ema.py:424-452 | every position is either kept or sold, and a position is kept exactly when it does not exit |
| HybridMomentumEma.ExitSells | hybrid_momentum_ema.py:430-450 | every logged sell sells an exiting position at its current price |
| HybridMomentumEma.ExitsKeepValue | hybrid_momentum_ema.py:430-498 | selling leaves the portfolio's value unchanged: the cash raised is what the positions were marked at |
| HybridMomentumEma.ExitSplit | hybrid_momentum_ema.py:430-452 | the proceeds of the sells plus the marked value of the kept positions equal the marked value of all positions before the exit step |
| HybridMomentumEma.ExitProceedsNonneg | hybrid_momentum_ema.py:436-437 | selling positive positions at positive prices raises non-negative cash |
| HybridMomentumEma.ExitKeepsDistinct | hybrid_momentum_ema.py:450 | the kept positions still hold each symbol once |
| HybridMomentumEma.Shares | hybrid_momentum_ema.py:470 | the share count of a non-negative allocation is non-negative |
| HybridMomentumEma.SharesFit | hybrid_momentum_ema.py:470 | the shares bought are the most whole shares the allocation pays for |
| HybridMomentumEma.Allotted | hybrid_momentum_ema.py:460-470 | each candidate's count is the whole shares of an equal share of the cash |
| HybridMomentumEma.BuyPositions | hybrid_momentum_ema.py:457-491 | without cash or candidates nothing changes; otherwise the cash stays in [0, cash], cash plus cost basis is preserved, held positions stay, each symbol is held once, and every new position is a candidate's allotted shares at its price, logged as a BUY; the outcome is `BuyStep`, the candidate fold with the allotted shares of `cash / len(candidates)` |
| HybridMomentumEma.BuyEach | hybrid_momentum_ema.py:462-491 | the buy loop with its invariant: cash never goes negative, cash plus cost basis is preserved, held positions stay, symbols stay distinct and new positions come from the candidates; the outcome is the fold of the one-candidate step (skip a held symbol or a zero share count, otherwise buy) over the candidates in order |
| HybridMomentumEma.Budget | hybrid_momentum_ema.py:460 | the spending allowance of the remaining candidates is non-negative |
| HybridMomentumEma.BudgetOfAll | hybrid_momentum_ema.py:460 | `n` allocations of `cash / n` are the whole cash |
| HybridMomentumEma.TopSymbols | hybrid_momentum_ema.py:421 | exactly the symbols of the selection |
| HybridMomentumEma.MonthTop | hybrid_momentum_ema.py:414-418 | the month's top 20 by the corrected selection, empty exactly when no stock passes the filter |
| HybridMomentumEma.SelectedPricesPositive | hybrid_momentum_ema.py:414-418 | from market data with positive prices every selected stock has a positive current price |
| HybridMomentumEma.ExitKeptValid | hybrid_momentum_ema.py:424-452 | the positions kept by the exit step are valid and were held before |
| HybridMomentumEma.BuyOutcome | hybrid_momentum_ema.py:457-491 | after the buy step positions stay valid, kept positions stay, and every new position is in a selected stock |
| HybridMomentumEma.Rebalance | hybrid_momentum_ema.py:399-507 | a month is skipped exactly with fewer than 20 stocks with history or an empty selection, and then nothing changes; otherwise cash stays non-negative, positions stay valid and distinct, and the snapshot is the value, the cash (between 0 and the value) and the position count. The log is the exit sells followed by BUYs of selected stocks; each sell closes a held position that exits; a held position stays exactly when it does not exit; every new position is in a selected stock and logged as bought; cash after is cash before plus sale proceeds less purchase costs, and cash plus cost basis equals cash plus proceeds plus the kept positions' cost basis. The buys: with `funds` the cash after the exits, when there are entry-signal stocks and `funds` is positive the kept positions are followed by new positions, each the allotted whole shares of `funds / len(candidates)` of a candidate at its price, and every candidate is held or cannot afford a share; otherwise nothing is bought and the cash is `funds`. The whole outcome (cash, positions, log) is `MonthTrade`, the exit step followed by the buy fold |
| HybridMomentumEma.BuyAfterExits | hybrid_momentum_ema.py:454-491 | the buy step on the cash the exits leave: the allotted purchases or nothing as above, new positions valid and of selected stocks, and the outcome with the exit sells is `TradeOn`, the functional month |
| HybridMomentumEma.TradeSelected | hybrid_momentum_ema.py:424-491 | a trading month exits the positions the month's rule closes and then runs the buy step on the month's BUY candidates; cash stays non-negative, positions stay valid and distinct, and a new position is of a selected stock |
| HybridMomentumEma.MonthFacts | hybrid_momentum_ema.py:424-491 | from a month's exits and buys: kept positions of selected stocks stay, cash moves by the log's proceeds less costs, the log is the exit sells then BUYs of selected stocks, and the outcome is `MonthTrade`, the month as a function of cash and positions |
| HybridMomentumEma.MonthOutcome | hybrid_momentum_ema.py:424-491 | a buy step whose outcome is `TradeOn` on the month's own exits and candidates is the month's trade `MonthTrade` |
| HybridMomentumEma.Backtest | hybrid_momentum_ema.py:371-520 | one snapshot per traded month, each with cash between 0 and the value; the final positions are valid and distinct and each was logged as bought; with no snapshot nothing was traded; the last snapshot's cash is the initial capital plus all sale proceeds less all purchase costs in the log; every sell in the log closes a position an earlier row bought, at a month where that position exits, at that month's price; the first month at which the written selection raises is reported, and none when no month raises; and the snapshots, the trade log and the final positions are exactly those of `Replay`: each traded month applies `MonthTrade` to the cash and positions the earlier months left, appends its log, and records the value, cash and position count after its trading |
| HybridMomentumEma.Replay | hybrid_momentum_ema.py:397-507 | the backtest as a fold over the months, with one snapshot per traded month |
| HybridMomentumEma.ReplayStep | hybrid_momentum_ema.py:397-507 | one more month extends the replay by that month's step |
| HybridMomentumEma.ReplayMonth | hybrid_momentum_ema.py:408-507 | one month of the replay records one snapshot exactly when the month trades |
| HybridMomentumEma.ReplayMonthOf | hybrid_momentum_ema.py:408-507 | a skipped month leaves the state as it was; a traded month whose outcome is `MonthTrade`, recorded with that outcome's value, cash and position count, is that month's replay step |
| HybridMomentumEma.ReplayIdle | hybrid_momentum_ema.py:408-419 | when no month trades, the backtest records no value and no trade and keeps the initial cash |
| HybridMomentumEma.BacktestMonth | hybrid_momentum_ema.py:397-507 | one month of the loop keeps the backtest's facts (`Booked`) from `i` months to `i + 1`: the state is the replay of the months so far (the month's trades, buys included, and its snapshot), cash is the initial capital plus proceeds less costs, every held position was logged as bought and every sell closes an earlier buy |
| HybridMomentumEma.BookedStep | hybrid_momentum_ema.py:424-507 | a month whose outcome meets the rebalance contract extends the replay, the cash identity, the bought-position log and the sell matching by one month |
| HybridMomentumEma.TrackedStep | hybrid_momentum_ema.py:424-507 | the same month extends the snapshot count, the cash bounds, the cash identity, the bought-position log and the sell matching |
| HybridMomentumEma.SellsStep | hybrid_momentum_ema.py:430-450 | the sells of a month close held positions, so each matches an earlier buy in the growing log |
| HybridMomentumEma.MonthLog | hybrid_momentum_ema.py:424-491 | the month's log is the exit sells then the buys: cash moves by proceeds less costs, positions afterwards were kept or logged as bought, each sell closes an exiting position, and a position stays exactly when it does not exit |
| HybridMomentumEma.MonthBooks | hybrid_momentum_ema.py:436-475 | with the cost-basis identity of the buy step, cash after equals cash before plus proceeds less costs of the whole log |
| HybridMomentumEma.MonthShape | hybrid_momentum_ema.py:424-491 | a held position is still held exactly when it does not exit, and the buys are BUYs of selected stocks |
| HybridMomentumEma.MonthSells | hybrid_momentum_ema.py:430-491 | the sells come first in the log, each closing an exiting position, and the rest are BUYs of selected stocks |
| HybridMomentumEma.CostOfLogged | hybrid_momentum_ema.py:470-489 | the cost of the logged buys is the cost basis the new positions add |
| HybridMomentumEma.RaisesAsWritten | hybrid_momentum_ema.py:409-418 | a month raises exactly when it has 20 stocks with history and the selection as written fails |
| HybridMomentumEma.TradedCount | hybrid_momentum_ema.py:404-418 | the months that trade are at most all of them |
| HybridMomentumEma.RaiseFrom | hybrid_momentum_ema.py:414-418 | the first month from a given one at which the written selection raises, with no earlier one raising; none exactly when no later month raises |
| HybridMomentumEma.SellCount | hybrid_momentum_ema.py:566 | no more sells than trades |
| HybridMomentumEma.WinCount | hybrid_momentum_ema.py:568 | no more winning sells than sells |
| HybridMomentumEma.WinRate | hybrid_momentum_ema.py:563-569 | the rate is in [0, 100]; 100 exactly when there are sells and every one won; 0 exactly when none won |
| HybridMomentumEma.TotalReturn | hybrid_momentum_ema.py:572 | undefined exactly for zero initial capital; otherwise the percentage change from the initial capital to the final value |
| HybridMomentumEma.TotalReturnSign | hybrid_momentum_ema.py:572 | from positive capital the return is positive exactly when the final value is larger |
| NiftyAlphaScreen.TailHighs | nifty_alpha_screen.py:162-167 | the highs of the last 252 rows, or of all rows when fewer |
| NiftyAlphaScreen.Retracement52W | nifty_alpha_screen.py:148-170 | a value exactly when there is data and the highest high of the last 252 rows is non-zero; the value is how far the last close sits below that high, in percent |
| NiftyAlphaScreen.RetracementIsPercentage | nifty_alpha_screen.py:158-170 | with non-negative closes at most the high, the retracement lies in [0, 100] |
| NiftyAlphaScreen.RetracementMirrorsScreener | nifty_alpha_screen.py:148-170 | with at least a year of positive bars, the retracement is the older screen's figure with its sign flipped |
| NiftyAlphaScreen.StartIndex | nifty_alpha_screen.py:192 | `iloc[-days]` reads row `n - days`, and row 0 for zero days |
| NiftyAlphaScreen.Returns | nifty_alpha_screen.py:173-197 | a value exactly with data, at least `months × 21` rows and a non-zero starting close; it is the percentage change from the starting close to the last |
| NiftyAlphaScreen.VolAdjustedReturn | nifty_alpha_screen.py:225-242 | a value exactly when both inputs are known and the volatility is non-zero; the value times the volatility is the return |
| NiftyAlphaScreen.VolAdjustedSign | nifty_alpha_screen.py:239-242 | with positive volatility the adjusted return has the return's sign |
| NiftyAlphaScreen.RelativeStrength | nifty_alpha_screen.py:245-263 | a value exactly when both returns are known; it is the stock's return minus the index's, positive exactly when the stock did better |
| NiftyAlphaScreen.Where | nifty_alpha_screen.py:314-324 | a boolean mask keeps exactly the rows satisfying it, no more often than they occur |
| NiftyAlphaScreen.Known | nifty_alpha_screen.py:318 | exactly the known values of a column |
| NiftyAlphaScreen.Median | nifty_alpha_screen.py:318 | missing exactly for no values; otherwise at most the upper half of the sorted values and at least the lower half |
| NiftyAlphaScreen.MiddleBounds | nifty_alpha_screen.py:318 | in a descending sequence the middle value, or the mean of the two middle values, is at most every value of the first half and at least every value of the second half |
| NiftyAlphaScreen.ReturnColumn | nifty_alpha_screen.py:318 | the six-month returns, one per row |
| NiftyAlphaScreen.ApplyFilters | nifty_alpha_screen.py:296-329 | the kept rows are input rows, each at most once as often as in the input; a row is kept exactly when it is within 30% of its high, its return reaches the median return of those rows, and it beat the index |
| NiftyAlphaScreen.ReturnFilterKeepsSome | nifty_alpha_screen.py:316-320 | when a stock near its high has a known return, the return filter keeps at least one stock |
| NiftyAlphaScreen.Column | nifty_alpha_screen.py:348-350 | one metric column, one value per row |
| NiftyAlphaScreen.RescaleBounds | nifty_alpha_screen.py:348-350 | a value between a column's minimum and maximum rescales into [0, 1) |
| NiftyAlphaScreen.RescaleMonotone | nifty_alpha_screen.py:348-350 | rescaling keeps the order of values |
| NiftyAlphaScreen.Normalise | nifty_alpha_screen.py:348-350 | known values stay known and NaN stays NaN; each known value lands in [0, 1); their order is kept |
| NiftyAlphaScreen.CompositeScores | nifty_alpha_screen.py:332-360 | a score exactly when all three metrics are known; with non-negative weights it lies between 0 and the weights' sum |
| NiftyAlphaScreen.WeightedSumBetween | nifty_alpha_screen.py:353-357 | non-negative weights of values in [0, 1] sum to between 0 and the weights' sum |
| NiftyAlphaScreen.DefaultScoresAreFractions | nifty_alpha_screen.py:332-360 | with the weights 0.4, 0.3 and 0.3 every score lies in [0, 1] |
| NiftyAlphaScreen.ScoreRespectsDominance | nifty_alpha_screen.py:348-358 | with non-negative weights, a row no better on any of the three metrics never scores above another |
| NiftyAlphaScreen.RankAll | nifty_alpha_screen.py:374 | the ranking is a permutation of the rows |
| NiftyAlphaScreen.RankAllIsRanked | nifty_alpha_screen.py:374 | the ranking orders scored rows by descending score and puts the unscored ones last |
| NiftyAlphaScreen.SelectTopStocks | nifty_alpha_screen.py:363-375 | for a non-negative `top_n`, min(top_n, rows) rows, drawn from the input |
| NiftyAlphaScreen.SelectionOutranksTheRest | nifty_alpha_screen.py:363-375 | the selection is ranked, and no scored row left out scores above a kept one |
| NiftyAlphaScreen.Peak | nifty_alpha_screen.py:560 | the running maximum is one of the values so far and at least all of them |
| NiftyAlphaScreen.Drawdowns | nifty_alpha_screen.py:549-562 | one entry per value, known exactly where the running peak is non-zero, and then the value's percentage change from the peak |
| NiftyAlphaScreen.DrawdownBounds | nifty_alpha_screen.py:549-562 | for a positive series every drawdown is known, lies in (-100, 0], and is 0 exactly at a new peak |
| NiftyAlphaScreen.MaxDrawdown | nifty_alpha_screen.py:637-649 | the smallest known drawdown; missing exactly when none is known |
| NiftyAlphaScreen.MaxDrawdownBounds | nifty_alpha_screen.py:637-649 | for a positive non-empty series the maximum drawdown is known, lies in (-100, 0], and is 0 exactly when the series never falls |
| NiftyAlphaScreen.Gain | nifty_alpha_screen.py:693-698 | a step is dropped exactly from 0 to 0; from a positive base it is a gain exactly when the value rises, from a negative base exactly when it falls |
| NiftyAlphaScreen.ChangeSign | nifty_alpha_screen.py:698 | from a non-zero base the change is positive exactly when the value rises from a positive base or falls from a negative one |
| NiftyAlphaScreen.Steps | nifty_alpha_screen.py:693 | no steps for fewer than two values, and at most one per consecutive pair |
| NiftyAlphaScreen.Wins | nifty_alpha_screen.py:698 | no more wins than steps |
| NiftyAlphaScreen.WinRate | nifty_alpha_screen.py:680-699 | missing exactly when no step is kept; otherwise in [0, 100], 100 exactly when every step is a gain, 0 exactly when none is |
| NiftyAlphaScreen.RisingSeriesAlwaysWins | nifty_alpha_screen.py:680-699 | a positive strictly rising series has a win rate of 100 |
| NiftyAlphaScreen.FlatOrFallingSeriesNeverWins | nifty_alpha_screen.py:680-699 | a positive series that never rises has a win rate of 0 |

## Left out

- Network I/O is not modelled. This covers the NSE session and cookies, archive and zip downloads, `yf.Ticker` calls and web scraping. Their results are inputs to the functions that use them: `info`, `history`, `download` and `fetch` parameters.
- Concurrency is modelled as sequential folds: `asyncio.Semaphore`, `gather`, `run_in_executor`, the thread pools in `warmup_cache` and in `data_pipeline.fetch_all_data`, and `export_async`. Per-task exception isolation is kept, as a `Raised` outcome.
- The wall clock and `time.sleep` are parameters. Retry sleeps are recorded in a trace instead of being slept.
- Text is ASCII only. Unicode case mapping, `isalnum` and whitespace are restricted to their ASCII part.
- Float behaviour is not modelled: real arithmetic stands in for binary floating point. This covers `round(x, n)` on outputs and the float rounding of `int(alloc / price) * price`.
- Standard deviation, square roots and fractional powers are not modelled. This leaves out the volatility figures, the Sharpe and Sortino ratios, and CAGR, which are taken as inputs where a decision uses them.
- pandas' weekly `resample('W').last()` and `ta.EMAIndicator` are inputs: the weekly close series, and the EMA series of the hybrid strategy.
- Sort tie-breaking is not modelled. Contracts state order and contents, not the placement of equal keys.
- Positive prices are a precondition of the stock_screener strategies, the hybrid buy loop and the portfolio valuation. In the source a zero price divides by zero, giving inf or NaN.
- PyStrings.ParseFloat: `inf`, `nan`, `infinity`, `_` between digits and literals that overflow to inf are not read; they raise `ValueError` here, where Python returns a float.
- PyStrings.ParseInt: `_` between digits is not read; it raises `ValueError` here.
- Validators.ToFloat: a string is read by `ParseFloat`, so the four range validators reject `"inf"`, `"nan"` and underscored numbers, which the source may accept or reject by their value.
- Validators.ValidateScore: a string such as `"1_0"` is judged invalid, since `ParseFloat` does not read it; so is `"inf"` against an infinite upper bound.
- Validators.ValidatePercentage: a string such as `"1_0"` is judged invalid, since `ParseFloat` does not read it; `"inf"` and `"nan"` are invalid in both.
- Validators.ValidateMarketCap: a string such as `"inf"` or `"1_000"` is judged invalid, since `ParseFloat` does not read it.
- Validators.ValidatePrice: a string such as `"inf"` or `"1_000"` is judged invalid, since `ParseFloat` does not read it.
- Config.Convert: an int or float override is read by `ParseInt` or `ParseFloat`, with the same gaps.
- NiftyAlphaScreen.Retracement52W: a zero 52-week high with a positive last close gives `-inf` in the source, which the `<= 30` filter keeps; here it is `None`, like the NaN of a zero close, and the filter drops it. On real bars the high is at least the close, so a zero high comes only with a close that is not positive.
- NiftyAlphaScreen.Returns: from a zero starting close the source gives NaN when the last close is zero too and ±inf otherwise; both are `None` here, so an infinite return never reaches the filters.
- HybridMomentumEma.Rebalance: a month with enough history but no stock passing the filter is skipped, as the corrected selection gives; the source raises `KeyError` there (`Raises` names that month).
- HybridMomentumEma.Backtest: the months are traded with the corrected selection, so the backtest continues past a month in which the source raises `KeyError`; that month is reported as `raisesAt`.
- NaN cells in bhavcopy tables are not modelled for the NSE fetcher. A missing cell reads as `None`.
- StockAnalyzer.DeliveryFrom: a bhavcopy cell that pandas reads as NaN is `None` here. The source's `is not None` test lets a NaN deliverable quantity through when the traded quantity is positive, and stores a NaN percentage; the model stores nothing.
- StockAnalyzer.AnalyzeDeliveryTrend: a NaN percentage is truthy in the source, so it is appended, and every comparison with it is false. Percentages `[NaN, 30, 40]` therefore give `flat` in the source. The model reads the NaN cell as `None`, drops that day and reports `rising`.
- YAML loading and the `Config` singleton are not modelled. The built-in default tree stands in for a loaded file.
- The `cached_property` invalidation of `results_df` is not modelled. The table is a pure function of `results`.
- `data_pipeline.fetch_all_data` and `_fetch_stock_data` are network-driven gathering and are not modelled. Scoring starts from the gathered rows.
- `calculate_all_metrics` of stock_screener.py, hybrid_momentum_ema.py and nifty_alpha_screen.py is not modelled. Its per-stock figures are the input rows.
- `calculate_momentum_metrics` of the hybrid strategy is not modelled. Each month's metrics, prices and EMA signals are inputs (the `Month` record).
- The hybrid `calculate_performance_metrics` is modelled only for the win rate and the total return. Sharpe, CAGR and the drawdown figures of the backtest are left out.
- PriceKey: distinct `(symbol, period, interval)` triples can give the same `price_...` key when a part contains `_`. The cache-coherence lemma is therefore stated for fundamentals only.
- `validate_date` in src/utils/validators.py is not modelled, because it depends on `datetime.strptime` formats.
- The exception branch of `StockScorer.calculate_score` is not modelled, because typed inputs cannot raise there.
- Plotting, CSV/Excel export, logging, the CLI, the dashboard and the demos are not modelled.
- nse_data_fetcher.py is not modelled separately. Its day-selection and delivery lookup code is the same as src/data_fetchers/nse_fetcher.py, which is modelled.
- NiftyAlphaScreen.Drawdowns: where the running peak is 0, pandas gives an infinity or NaN. The model gives `None` there.
- NiftyAlphaScreen.Median: the median is stated by its order properties, not by the interpolation formula.
- StockScreener.MomentumScore: the contract states only the sign of the score without Sharpe or Sortino. The Sharpe and Sortino terms are inputs whose values are not modelled.
- StockAnalyzer.AnalyzeDeliveryTrend: the contract states only the cases without enough paths. The full behaviour is stated by `TrendOfFullDays`, `OnlyFirstThreeRead` and `InsufficientWhenFewValues`.

## Findings

| source | as written | input that shows it | evidently intended | confidence | as-written member | corrected member |
|---|---|---|---|---|---|---|
| hybrid_momentum_ema.py:297-319 | `select_top_stocks` builds its table from an empty list when no stock is within 30% of its high. `sort_values('composite_score')` then raises `KeyError`, because there is no such column. | one stock with retracement 35 | an empty selection, which the backtest's `len(top_stocks) == 0` check at line 418 expects | not executed; high | HybridMomentumEma.SelectTopStocksAsWritten, shown by HybridMomentumEma.EmptySelectionRaises and reported by HybridMomentumEma.Backtest as `raisesAt` | HybridMomentumEma.SelectTopStocks |
| src/data_fetchers/delivery_fetcher.py:256-279 | `_calculate_trend` compares the mean of the second half against the first half. But `fetch_delivery_trend` passes lists ordered newest first. So "rising" is reported when delivery fell over time, and vice versa. | delivery of 40% yesterday and 60% today is reported `falling` | the later half compared against the earlier half in time order | not executed; medium | DeliveryFetcher.CalculateTrend, through DeliveryFetcher.Summarize, shown by DeliveryFetcher.TrendInvertedAsWritten | DeliveryFetcher.TrendOfNewestFirst, used by DeliveryFetcher.SummarizeCorrected, shown by DeliveryFetcher.SummaryTrendInverted |
