# Solana predictor: query interpreters and indicators in Dafny

This project models the deterministic core of the Solana price predictor app.
That core has four parts:

- **The chat command parser** (`parse_command`). It turns a Spanish request into a
  six-field command: metric, request type, period (days or a year), forecast
  days, chart style and confidence. Each rule overwrites what the rules before
  it set.
- **The back end's query interpreter** (`extract_parameters`). It is paired with
  `preprocess_input`, which filters the table by date and selects columns, and
  with `generate_explanation`, which writes the answer text.
- **The serverless `/api/predict` handler.** It checks the method, then maps
  keywords to metrics, indicators, a time range and a prediction flag.
- **The technical indicators**: SMA, EMA, MACD and RSI over a price series. The
  dashboard's x-axis unit classifier is modelled beside them.

Each source file is one module:

| module | file | source |
|---|---|---|
| `Wrappers` | wrappers.dfy | `Option` and `Result` |
| `Text` | text.dfy | Python `lower`/`strip`, `\s`, `\w` and `\d` on Latin-1; substring tests; decimal year strings |
| `Dates` | dates.dfy | calendar dates and inclusive date ranges |
| `NlpParser` | nlp_parser.dfy | src/nlp_parser.py |
| `DataProcessing` | data_processing.dfy | backend.py/utils/data_processing.py |
| `PredictApi` | predict_api.dfy | pages/api/predict.js |
| `Indicators` | indicators.dfy | src/indicators.py |
| `Dashboards` | dashboards.dfy | frontend/components/Dashboards.js |

The imperative code stays imperative:

- `ParseCommand`, both `ExtractParameters` methods, `GenerateExplanation`,
  `CalculateSma`, `CalculateEma` and both RSI methods overwrite locals, append,
  and loop (with `break` for the year scans) as the source does.
- Each of these methods is proved equal to a specification function, or states
  its result outright.
- The properties are proved about those functions.

Some conventions of the model:

- Confidence is an integer in tenths.
- Timestamps in the dashboard are integer milliseconds.
- Prices are exact reals.
- The wall clock is a parameter (`Clock`).
- The regular expression `(\d+)\s*(días?|d\b|semanas?|meses?|años?)` is a
  left-to-right scan: `MatchAt` tries one position and `SearchFrom` finds the
  leftmost match. Backtracking never changes a match, because every unit
  word starts with a letter.

Some behaviour the proofs pin down:

- `"últimos 70 días"` gives 7 days, because the text contains a `7`.
- The singular `"1 mes"` does not match the pattern at all, because `meses?`
  needs `mese`.
- In the back end, "volumen y precio" ends with metrics `['close']` but chart
  type `dual`.

## Model

| member | source | states |
|---|---|---|
| NlpParser.ParseCommand | src/nlp_parser.py:4-114 | the command equals `Parse` of the lower-cased, stripped input, rule by rule in source order |
| NlpParser.DetectPeriod | src/nlp_parser.py:62-103 | period and forecast days equal `PeriodOf`/`ForecastOf`: an explicit year beats "últimos", which beats the number+unit match, which beats the 30/14 defaults; a year never touches forecast days |
| NlpParser.TypeConfidence | src/nlp_parser.py:29-38 | the type rule leaves 0.3, 0.7 or 0.8; 0.8 exactly when the request is typed indicator; 0.3 only for the historical default |
| NlpParser.ConfidenceOf | src/nlp_parser.py:26-58 | final confidence is one of 0.3, 0.5, 0.7, 0.8, 0.9, 1.0; never below the type rule's value and at most 1.0; +0.2 (clamped) exactly when a metric keyword occurs, else unchanged |
| NlpParser.NeverRejected | app.py:83 | every parse has confidence above 0.2, so the caller's rejection never fires |
| NlpParser.PredictionOutranksIndicator | src/nlp_parser.py:30-38 | a text with "predicción" and "rsi" is typed prediction with confidence at least 0.7 |
| NlpParser.SearchFrom | src/nlp_parser.py:64 | the result is a match position with its match, and no position before it matches |
| NlpParser.MatchTakesWholeNumber | src/nlp_parser.py:64-66 | the leftmost match never starts inside a digit run, so the number read is the whole run |
| NlpParser.SingularMonthNotMatched | src/nlp_parser.py:64-77 | "1 mes" does not match; "3 meses" matches as 3 months, which is 90 days |
| NlpParser.LastTwoWeeksIsSeven | src/nlp_parser.py:82-85 | "últimas 2 semanas" gives period and forecast 7, not 14 |
| NlpParser.LastSeventyDaysIsSeven | src/nlp_parser.py:64-85 | "últimos 70 días" matches 70 days, yet period and forecast end as 7 |
| NlpParser.VisualizationOf | src/nlp_parser.py:105-109 | bar exactly when "bar" occurs; candlestick exactly when "bar" does not and "velas" or "candlestick" does |
| NlpParser.ParseSeesOnlyNormalizedText | src/nlp_parser.py:18 | normalising again changes no field of the parse |
| Text.NormalizeIdempotent | src/nlp_parser.py:18 | lower-casing and stripping is idempotent |
| Text.Strip | src/nlp_parser.py:18 | the result is a slice `s[a..b]` of the input, everything before `a` and from `b` on is whitespace, and the result has no whitespace at either end |
| Text.FirstYearMentioned | src/nlp_parser.py:100-103 | the result is the smallest year in range whose decimal text occurs, or none occurs |
| Text.DecimalRoundTrip | src/nlp_parser.py:101 | reading back `str(n)` gives `n` |
| Text.DecimalInjective | backend.py/utils/data_processing.py:185-188 | distinct years have distinct decimal texts |
| Text.DecimalNoLeadingZero | backend.py/utils/data_processing.py:201 | the decimal text of a whole part starts with '0' only when it is exactly "0", as Python prints it |
| DataProcessing.ExtractParameters | backend.py/utils/data_processing.py:91-172 | the parameters equal `ParamsOf` of the lower-cased query, and the time range is always set |
| DataProcessing.DetectTimeRange | backend.py/utils/data_processing.py:138-170 | the time range is the smallest year written (2020 to this year), else the "último mes/trimestre/año" range, else the 30 days ending today |
| DataProcessing.MetricsOf | backend.py/utils/data_processing.py:102-119 | a single metric, or the close and volume default exactly when no trades, price or volume keyword occurs |
| DataProcessing.IndicatorsOf | backend.py/utils/data_processing.py:121-129 | a subsequence of rsi, sma, volatility in that order without repeats; each present exactly when one of its keywords occurs |
| DataProcessing.VolumeWithPriceIsDualClose | backend.py/utils/data_processing.py:103-116 | "volumen" with "precio" ends with metrics ['close'] and chart type dual |
| DataProcessing.YearOverridesPhrases | backend.py/utils/data_processing.py:142-164 | a year from 2020 to this year in the query makes the range a whole year no later than it, whatever phrase occurs |
| DataProcessing.KeepAvailable | backend.py/utils/data_processing.py:76 | a metric is kept exactly when requested and available; the list never grows |
| DataProcessing.KeepAvailableKeepsOrder | backend.py/utils/data_processing.py:76 | filtering distributes over concatenation, so request order is kept |
| DataProcessing.SelectMetrics | backend.py/utils/data_processing.py:73-79 | never empty and only available metrics; exactly the available requested ones when there are some, else close and volume |
| DataProcessing.EssentialColumns | backend.py/utils/data_processing.py:82 | "timestamp" first, then at least one available metric |
| DataProcessing.DateMask | backend.py/utils/data_processing.py:60-64 | a row is kept exactly when its date lies between start and end, both inclusive; a single row is kept or dropped as a whole |
| DataProcessing.DateMaskKeepsOrder | backend.py/utils/data_processing.py:63-64 | masking a table split in two is masking each part and concatenating, so the matching rows are kept once each, in table order |
| DataProcessing.PreprocessInput | backend.py/utils/data_processing.py:56-89 | without a timestamp column the table comes back unchanged; otherwise, when all essential columns exist, the result is those columns over the date-filtered rows projected onto them, and else it is the date-filtered table with its own columns |
| DataProcessing.Project | backend.py/utils/data_processing.py:83 | every row keeps its timestamp, and a value is kept exactly when its column is listed, unchanged |
| DataProcessing.FormatFixed2 | backend.py/utils/data_processing.py:201 | the price text has a '-' exactly for a negative price, then a non-empty whole part with no leading zero (a lone "0" allowed), a point and exactly two digits; the digits read back as the magnitude in cents rounded half up, which fixes the text `.2f` prints |
| DataProcessing.Explanation | backend.py/utils/data_processing.py:174-212 | the text starts with the echoed query and ends with the disclaimer |
| DataProcessing.GenerateExplanation | backend.py/utils/data_processing.py:174-212 | the appended text equals `Explanation` |
| DataProcessing.TimeInfoYears | backend.py/utils/data_processing.py:185-191 | "para el año Y" exactly when start and end years are equal, else "desde A hasta B" |
| DataProcessing.ZeroPredictionIsNoPrediction | backend.py/utils/data_processing.py:200-203 | a prediction of 0.0 gives the same text as no prediction |
| Dates.YearRange | backend.py/utils/data_processing.py:160-163 | a valid date lies in the range exactly when it is in that year |
| PredictApi.ExtractParameters | pages/api/predict.js:35-76 | the parameters equal `ApiParamsOf` of the lower-cased query |
| PredictApi.MetricsOf | pages/api/predict.js:58-60 | "precio" gives ['close'] even with "volumen"; ['volume'] exactly for "volumen" without "precio"; the default exactly when neither occurs |
| PredictApi.IndicatorsOf | pages/api/predict.js:48-51 | rsi, sma, volatility in push order, each at most once, each present exactly on its keywords |
| PredictApi.Handler | pages/api/predict.js:3-33 | 405 exactly for a method other than POST, before the body is read; 500 without a query; else 200 with the extracted parameters |
| PredictApi.KeywordFreeQueryGetsDefaults | pages/api/predict.js:37-46 | every query whose lower-cased text holds none of the eleven keywords gets close and volume, no indicators, 2023-01-01..2023-03-31 and no prediction |
| Indicators.CalculateSma | src/indicators.py:28-33 | length is the larger of n and period−1; the first period−1 entries are None; entry i is the mean of the period prices ending at i |
| Indicators.MeanBounds | src/indicators.py:32 | a window's mean lies between any bounds of its prices |
| Indicators.Ema | src/indicators.py:35-41 | the EMA has the input's length and starts at the first price |
| Indicators.EmaStep | src/indicators.py:37-40 | each later value is price·m + previous·(1−m) with m = 2/(period+1) |
| Indicators.EmaPrefix | src/indicators.py:39-40 | the EMA of a prefix is the prefix of the EMA |
| Indicators.EmaOfConstant | src/indicators.py:37-41 | a constant series has a constant EMA |
| Indicators.EmaWithinBounds | src/indicators.py:37-41 | for period ≥ 1 every EMA value lies within any bounds of the prices |
| Indicators.CalculateEma | src/indicators.py:35-41 | the appended list equals `Ema` |
| Indicators.CalculateMacd | src/indicators.py:43-56 | MACD, signal and histogram all have the input's length |
| Indicators.MacdStartsAtZero | src/indicators.py:45-50 | MACD, signal and histogram all start at 0 |
| Indicators.MacdOfConstant | src/indicators.py:43-56 | a constant series has MACD, signal and histogram all zero |
| Indicators.GainsMinusLosses | src/indicators.py:5-7 | gain minus loss is the price change, and one of them is 0 |
| Indicators.RsiValue | src/indicators.py:18-22 | the value lies in [0, 100]; with zero average loss it is 100 when the average gain is positive and 0 otherwise; with a positive average loss it is below 100 |
| Indicators.SmoothedAverage | src/indicators.py:9-16 | Wilder's running average of non-negative changes is non-negative; it starts from the plain mean of the first period changes and folds one further change per step |
| Indicators.RsiStartsFromInitialMeans | src/indicators.py:9-12 | the first RSI value, at index period, is the RSI of the plain means of the first period gains and losses |
| Indicators.FirstRsiOfShortSeries | src/indicators.py:9-12 | for closes 0, 2, 1 with period 2 the first RSI value is 200/3 (average gain 1, average loss 1/2) |
| Indicators.CalculateRsiAsWritten | src/indicators.py:3-26 | fails with an out-of-bounds read at index n−1 exactly when n > period; otherwise returns period Nones |
| Indicators.CalculateRsi | src/indicators.py:3-26 | with the read fixed: length is the larger of n and period; period leading Nones; at index period the RSI of the initial means; at each later index i the RSI after folding in the change that ends at closes[i]; each value in [0, 100] |
| Dashboards.CeilDaysAbove | frontend/components/Dashboards.js:312 | the day count, rounded up, exceeds k exactly when the span exceeds k whole days |
| Dashboards.DetermineTimeUnit | frontend/components/Dashboards.js:307-318 | no list or fewer than two timestamps gives day; a first or last timestamp beyond ±8.64e15 ms (an Invalid Date, so a NaN span) gives day; otherwise the unit is `UnitForSpan` of last minus first in milliseconds: over 365 whole days is year, over 30 month, over 7 week, else day |
| Dashboards.UnitMonotone | frontend/components/Dashboards.js:314-317 | between timestamps in the JavaScript date range, a longer span never gives a finer unit |
| Dashboards.FarTimestampIsDay | frontend/components/Dashboards.js:310-317 | a last timestamp past the date range gives day, even where its span alone would give year |
| Dashboards.ReversedIsDay | frontend/components/Dashboards.js:312-317 | a last timestamp before the first gives day |

## Left out

- Text handling covers Latin-1 only. Python's `lower`, `strip`, `\s`, `\w` and `\d` and JavaScript's `toLowerCase` are exact there. Characters beyond Latin-1, including non-ASCII Unicode digits for `\d`, are not modelled.
- The wall clock is a parameter, read once. The back end's `Clock` holds today and the dates 30 and 90 days earlier. The API's `Clock` holds today and whatever `setMonth(getMonth() - 1)` on local time yields, taken in its UTC date part. That call can roll over into the current month (March 31 gives March 3). Calendar arithmetic is not modelled; the model takes these dates as given.
- Dates are whole days. Intraday timestamps in the price table and the zero padding of `%Y` for years below 1000 are not modelled.
- Indicators compute over exact reals. Floating-point rounding, NaN and infinity are not modelled.
- DataProcessing.FormatFixed2: rounds the exact real value, with ties rounded up. Python's `.2f` rounds the binary double to the nearest value, with ties to even, so `format(0.125, '.2f')` is `'0.12'` where the model gives `0.13`.
- Indicators.CalculateEma: requires a non-empty input and a period other than −1. Those are the two inputs that raise in the source.
- Indicators.CalculateMacd: requires a non-empty input. On an empty series the source raises `IndexError` through `calculate_ema`, which the model does not return as an error.
- NlpParser.ConfidenceOf: counts in exact tenths. The source adds binary floats, so 0.7 + 0.2 is `0.8999999999999999`, not 0.9. Comparisons against 0.2 are unaffected.
- NlpParser.MatchAt: reads a digit run of any length. CPython's `int()` raises `ValueError` on a run longer than 4300 digits by default.
- Indicators.CalculateSma: requires period ≥ 1. For period 0 the source raises nothing: `[None] * -1` is empty and every window `prices[i+1:i+1]` is empty, so each entry is NaN. A negative period makes Python slices count from the end. Neither NaN nor those windows are modelled.
- Dashboards.UnitMonotone: requires every end timestamp in the JavaScript date range. An out-of-range timestamp gives day whatever its span, so monotonicity does not hold across that edge.
- Indicators.CalculateRsi: requires period ≥ 1, since the only caller passes 14 (app.py:182). On a period ≤ 0 the source raises `IndexError` for every non-empty series, because its loop still reaches `gains[len(closes) - 1]`, one past the last gain. A negative period raises it on an empty series too, reading `gains[period]` of an empty array; period 0 on an empty series returns `[]`. The initial average of an empty gain list, which numpy reports as NaN, is 0 in the model. No result ever reads it.
- `calculate_volatility` uses `np.std` and `sqrt`, which are floating-point numerics.
- The API's chart data, explanation text and random prediction value come from `utils/mockData.js` and `Math.random`. The response records only whether a prediction is present.
- PredictApi.Handler: the 500 message keeps only the fixed prefix, not the JavaScript error text.
- The back end's `load_historical_data`, the model loading, the Streamlit and React UI, and the other API routes are plumbing, file I/O or calls into trained models.
- DataProcessing.PreprocessInput: the "last 30 days" fallback is applied only as the source reaches it, on an empty table whose maximum is NaT, where it keeps the table empty. The printed error message is not modelled.

## Findings

| source | as written | input that shows it | evidently intended | confidence | as-written member | corrected member |
|---|---|---|---|---|---|---|
| src/indicators.py:14-16 | the loop reads `gains[i]` and `losses[i]` for `i` up to `len(closes) - 1`, but `np.diff` leaves only `len(closes) - 1` entries | any 15 closes with period 14: `gains` has 14 entries and the loop reads `gains[14]`, raising `IndexError` | Wilder's RSI: the value at index `period` from the initial means alone, and at each later index `i` fold `gains[i - 1]`, the change that ends at `closes[i]`; the source folds `gains[i]` at index `i`, so each value it computes belongs one index later | high, not executed | Indicators.CalculateRsiAsWritten | Indicators.CalculateRsi |
