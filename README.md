# Macro-analysis Forex: a verified model of the deterministic core

This project models, in Dafny, the deterministic logic of the Forex macro
dashboard. The logic is spread over four Python modules.

- **COT positioning scorer** (`cot_data.py`, module `Cot`).
  - The COT Index places the latest net position within its 52-week range, in
    tenths of a percent (`500` is the source's `50.0`).
  - The momentum compares the latest weekly delta with the mean of the four
    deltas before it.
  - A decision table maps long/short, the intensity band and the momentum
    direction to a unified score in [-2, +2].
  - `COTDataManager` is a class holding its debug log and the status of the
    last download.
  - Two helpers read the score and the display rows back out.
- **Economic-regime classifier** (`economic_regimes.py`, module `Regimes`).
  - A weighted PMI composite and a weighted inflation index.
  - The delta against the mean of the last three readings.
  - A four-quadrant regime with its tie-break.
  - A seven-band momentum arrow.
  - A CPI headline/core divergence detector and a regime-to-score table.
  - The per-currency pipeline with its fallbacks, and the loop over every CPI
    currency.
- **Helpers of the dashboard** (`forex_analyzer_claude.py`, module `ForexAnalyzer`).
  - The bias icon and the two date formatters.
  - The cleanup of the model's JSON reply: markdown fences, then the brace span.
  - The fallback for `currencies_data`.
  - The score totals of the pair detail view.
  - The local history of analyses: file name and date key, newest-first
    listing, latest analysis.
  - The TradingEconomics table reader.
- **Indicator fetcher** (`macro_data_fetcher.py`, module `MacroFetcher`).
  - The range validators.
  - The choice of observation or row in the FRED, Bank of England, SNB and
    Bank of Japan responses.
  - The getters, which validate without any fallback.
  - The shape of `get_all_data`.

Two support modules hold what the four share:

- `Common`: `Option`; `Num`, a Python float that is either finite or
  `inf`/`nan`; and the last-write-wins dict built by a loop.
- `Text`: the parts of Python's `str` the core uses: `strip`, `find`/`rfind`,
  `split`, `replace`, ASCII `lower`, `float()` and ordering of strings.

## How the source was modelled

Every network response is a parameter holding the text, rows or observations it
would have delivered. This covers CFTC, Investing.com, FRED, the central-bank
sites and TradingEconomics. An HTTP failure is `None`.

- `np.percentile` is a function parameter.
- The Investing.com feed is a function from event id to the points it returns.
- The outcome of each getter in `get_all_data` is a function from
  (currency, indicator) to "returned a value" or "raised an exception with a
  message".
- The local `data/` folder is a listing of file names plus a map from date key
  to the parsed file.

Python floats are exact reals. Integer conversions are written out: `int()` of
a float truncates toward zero. `round(x, 1)` and `round(x, 2)` round half to
even, at the last decimal of the real value.

The code has no per-pair scoring engine. The per-pair scores are requested
from the language model in the prompt text (forex_analyzer_claude.py:139-208)
and only read back from its JSON reply (forex_analyzer_claude.py:671-677). The
model follows the code. It covers the reading back: `FillCurrenciesData`,
`GetScoreInfo` and the displayed totals. It does not cover a scoring table.

## Model

| member | source | states |
|---|---|---|
| Common.AssignAll | cot_data.py:489-529 | a dict filled by `d[k] = v` in a loop holds exactly the assigned keys, and each key holds the value of its last assignment |
| Text.StripBy | macro_data_fetcher.py:233-239 | `str.strip()` returns the slice left after dropping leading and trailing whitespace, and neither end of it is whitespace |
| Text.Split | macro_data_fetcher.py:233 | `str.split(sep)` gives one more part than there are separators, no part contains the separator, and joining the parts with it gives back the input |
| Text.RemoveChar | forex_analyzer_claude.py:436 | `value.replace('%', '')` keeps exactly the characters other than '%': no '%' is left, every other character of the input survives, the length drops by the number of '%', and an input without '%' is unchanged |
| Text.RemoveCharConcat | forex_analyzer_claude.py:436 | removal distributes over concatenation, so the surviving characters keep their order |
| Text.LexLessTransitive | forex_analyzer_claude.py:336 | Python's string ordering, which `sorted` uses, is transitive |
| Text.LexLessTotal | forex_analyzer_claude.py:336 | of two different strings exactly one is smaller, so the newest-first order is total |
| Cot.Window52 | cot_data.py:278 | `xs[-52:]` is the suffix of the last 52 entries, or the whole list when it is shorter |
| Cot.Min | cot_data.py:281 | the 52-week minimum occurs in the window and bounds every entry from below |
| Cot.Max | cot_data.py:282 | the 52-week maximum occurs in the window and bounds every entry from above |
| Cot.Telescope | cot_data.py:311-327 | the weekly deltas between two weeks sum to the change of the net position between them |
| Cot.MeanOfFourDeltas | cot_data.py:326-327 | the mean of the four deltas before the latest one is a quarter of the change over those four weeks |
| Cot.Trunc | cot_data.py:338-342 | `int(x)` truncates toward zero |
| Cot.NearestTenthsCorrect | cot_data.py:288 | `round(100 * a / b, 1)` is the nearest tenth, and the even one on a tie |
| Cot.PercentTenths | cot_data.py:287-288 | the rounded percentage of `a` out of `b` lies in [0, 100.0], is 100.0 when `a == b` and 0 when `a == 0` |
| Cot.PercentTenthsNearest | cot_data.py:287-288 | the percentage in tenths is the integer nearest to the exact `1000 * a / b`, the even one on a tie |
| Cot.RangePosition | cot_data.py:287-288 | the position of the latest value within [min, max] lies in [0, 100.0], is 100.0 at the maximum and 0 at the minimum, and is `round(100 * (current - min) / (max - min), 1)`: the nearest tenth, the even one on a tie |
| Cot.LatestWithinWindow | cot_data.py:278-282 | the latest net position lies between the 52-week minimum and maximum, because it is inside that window |
| Cot.WindowPosition | cot_data.py:281-288 | 50.0 for a flat window; otherwise the latest value's position in the window's range, rounded to the nearest tenth with ties to even |
| Cot.CotIndex | cot_data.py:262-288 | the COT index is 50.0 with fewer than two positions or a flat 52-week range; otherwise it lies in [0, 100], is 100 at the 52-week maximum and 0 at the minimum, and is the position of the latest value in that range rounded half-even to one decimal |
| Cot.CalculateMomentum | cot_data.py:290-344 | fewer than six positions give status insufficient_data with every number 0; otherwise the delta is the latest weekly change, ma4 is the truncated mean of the four deltas before it, the deviation is their truncated difference, and p25 and p75 are the truncated 25th and 75th percentiles of the last 52 deltas |
| Cot.IntensityOf | cot_data.py:365-370 | high above 70, medium from 30 to 70 inclusive, low below 30: three disjoint bands covering every index |
| Cot.DirectionOf | cot_data.py:373-385 | stable whenever the status is not ok; otherwise positive iff the delta is above p75, negative iff it is at most p75 and below p25 |
| Cot.ScoreTable | cot_data.py:388-451 | the score lies in [-2, 2]; +2 exactly for long/high/positive and -2 exactly for short/low/negative |
| Cot.ScoreTableMirror | cot_data.py:388-451 | score(long, I, M) equals minus score(short, I with high and low swapped, M flipped) |
| Cot.ScoreTableMonotone | cot_data.py:388-451 | for a fixed side and intensity, a stronger momentum never lowers the score |
| Cot.CalculateScores | cot_data.py:346-467 | the position is long iff the net position is above 0 (0 counts as short); the intensity is the band of the index, the direction that of the momentum, and the score is the table's cell for (side, intensity, direction), so it lies in [-2, 2] with its extremes exactly as the table has them; the direction is stable unless the momentum status is ok |
| Cot.NetPositions | cot_data.py:504 | the net-position column of the weekly rows, in order |
| Cot.AnalyzeCurrency | cot_data.py:491-529 | fewer than five weeks give the insufficient_data placeholder (index 50.0, zero scores); otherwise the entry carries the last row's date, net position and long/short positions, the previous net position, the COT index, the 52-week min and max, the momentum and the scores computed from the net-position column, and the latest position lies within that min and max |
| Cot.Currencies | cot_data.py:491 | the currency of each supplied frame, in order |
| Cot.Analyses | cot_data.py:491-529 | one analysis per frame, in order |
| Cot.AnalyzeAll | cot_data.py:469-538 | the result has exactly the supplied currencies, each with the analysis of its last frame |
| Cot.AnalysisLog | cot_data.py:491-536 | one debug entry per analysed currency, in order |
| Cot.CotDataManager.constructor | cot_data.py:74-83 | a new manager has an empty debug log and no fetch status |
| Cot.CotDataManager.GetDebugLog | cot_data.py:91-93 | returns the debug log |
| Cot.CotDataManager.ClearDebugLog | cot_data.py:95-97 | empties the debug log and changes nothing else |
| Cot.CotDataManager.LogDebug | cot_data.py:85-89 | appends one entry to the debug log and changes nothing else |
| Cot.CotDataManager.AnalyzeAllCurrencies | cot_data.py:469-538 | the results are those of `AnalyzeAll`, and one log entry per currency is appended in order |
| Cot.CotDataManager.RecordDownload | cot_data.py:113-168 | the lines the CFTC download logs are appended after the existing ones, and the per-currency statuses it records overwrite the old ones |
| Cot.CotDataManager.FetchAndUpdate | cot_data.py:544-586 | the log is restarted with "started" followed by the download's own lines; an empty download then logs "no data" and gives the error report; otherwise one line per analysed currency and "completed" follow, and the report holds the analysis of every downloaded currency, the fetch status and the full log |
| Cot.CotScoreFor | cot_data.py:602-620 | the score read back is 0 unless the report is ok and the currency was analysed, and in that case it is the analysis's unified score |
| Cot.CotScoreOfAnalysis | cot_data.py:602-620 | for a report built by the analysis, the score read back is in [-2, 2] and is 0 for a currency with fewer than five weeks |
| Cot.RowFor | cot_data.py:639-664 | a data row exactly when the currency was analysed, carrying its net position, COT index, current delta, ma4 delta, p75 and weeks; otherwise an "N/A" row with the weeks available (0 when the currency is missing) |
| Cot.FormatCotForDisplay | cot_data.py:623-666 | an empty list unless the report is ok; otherwise exactly seven rows, in the order USD, EUR, GBP, JPY, CHF, AUD, CAD, one per currency |
| Regimes.Abs | economic_regimes.py:255-276 | `abs` is non-negative and equals `x` or `-x` |
| Regimes.SumWithin | economic_regimes.py:238-244 | a sum of values in [lo, hi] lies between `n * lo` and `n * hi` |
| Regimes.MeanWithin | economic_regimes.py:238-244 | the mean of values in [lo, hi] lies in [lo, hi] |
| Regimes.RoundHalfEven | economic_regimes.py:567-589 | Python's `round` gives an integer within 0.5 of its argument, and the even one on a tie |
| Regimes.Round1 | economic_regimes.py:567 | `round(x, 1)` is a multiple of 0.1 within 0.05 of `x`, the even multiple on a tie |
| Regimes.Round2 | economic_regimes.py:588-589 | `round(x, 2)` is a multiple of 0.01 within 0.005 of `x`, the even multiple on a tie |
| Regimes.Definition | economic_regimes.py:59-96 | every regime has a non-zero forex score in [-2, 2], positive exactly for espansione and reflazione |
| Regimes.RegimeForexScore | economic_regimes.py:334-345 | the score of a key is in [-2, 2] and is non-zero exactly for the four regime keys, so "surriscaldamento" and "recessione" score 0 |
| Regimes.ForexScoreOfKey | economic_regimes.py:334-345 | the score looked up by key is the regime's own `forex_score` |
| Regimes.IdentifyRegime | economic_regimes.py:247-276 | both deltas beyond 0.1 give the quadrant: up/down espansione, up/up reflazione, down/up stagflazione, down/down deflazione; otherwise the larger delta decides, as reflazione/deflazione for PMI and stagflazione/espansione for inflation |
| Regimes.IdentifyRegimeCasesCover | economic_regimes.py:255-276 | the quadrant case and the two tie-break cases together cover every pair of deltas |
| Regimes.IdentifyRegimeDeadZone | economic_regimes.py:271-276 | with both deltas within ±0.1 the result is deflazione when the PMI delta is larger in size, else espansione; (0, 0) gives espansione |
| Regimes.Momentum | economic_regimes.py:279-299 | seven disjoint bands with strict cut-offs at ±1.0, ±0.3 and ±0.1; every delta within ±0.1 is stable |
| Regimes.MomentumMonotone | economic_regimes.py:279-299 | a larger delta never gives a lower arrow |
| Regimes.MomentumMirror | economic_regimes.py:279-299 | negating the delta gives the opposite arrow |
| Regimes.Weights | economic_regimes.py:48-56 | every weight row has non-negative weights summing to 1; an unlisted currency gets 0.5/0.5; services weigh 0 exactly for CHF and CAD and outweigh manufacturing exactly for USD and GBP |
| Regimes.PmiComposite | economic_regimes.py:198-207 | without a services reading, or with services weight 0 (CHF, CAD), the composite is the manufacturing PMI; otherwise it is the weighted sum manufacturing·w_m + services·w_s with the currency's weights |
| Regimes.ConvexBetween | economic_regimes.py:205-207 | a weighted average with weights summing to 1 lies between its two inputs |
| Regimes.PmiCompositeBetween | economic_regimes.py:198-207 | the composite lies between the manufacturing and the services PMI |
| Regimes.InflationIndex | economic_regimes.py:210-219 | the index is the headline without a core reading; otherwise 0.7·core + 0.3·headline, which lies between the two |
| Regimes.DetectCpiDivergence | economic_regimes.py:302-331 | a divergence is reported exactly when a core reading exists and differs from the headline by more than 0.5; it is headline_higher exactly when the headline is the larger |
| Regimes.DivergenceMovesIndex | economic_regimes.py:302-331 | a reported divergence pulls the inflation index more than 0.35 points away from the headline toward the core: below it for headline_higher, above it for core_higher |
| Regimes.Present | economic_regimes.py:238 | the readings whose "actual" is not None: a value is kept exactly when some entry holds it, and there are no more values than entries |
| Regimes.PresentConcat | economic_regimes.py:238 | the filter keeps the order: the values of a concatenation are those of its first part followed by those of its second |
| Regimes.PresentOne | economic_regimes.py:238 | one entry contributes its value when it has one and nothing otherwise |
| Regimes.PresentNone | economic_regimes.py:238-241 | a window without any value contributes no value |
| Regimes.PresentLift | economic_regimes.py:238 | dropping missing readings from a history that has none returns it unchanged |
| Regimes.CalculateDelta | economic_regimes.py:222-244 | the delta is 0.0 when the history is empty, shorter than `months`, or has no value among `history[1:months + 1]` |
| Regimes.CalculateDeltaSign | economic_regimes.py:222-244 | the delta is non-negative when the current value is at least every reading it is compared with, and non-positive when it is at most all of them |
| Regimes.MinSeq | economic_regimes.py:238-244 | the minimum of the compared readings is one of them and bounds them from below |
| Regimes.MaxSeq | economic_regimes.py:238-244 | the maximum of the compared readings is one of them and bounds them from above |
| Regimes.EventData | economic_regimes.py:103-154 | at most six readings: the values of the six newest points that have one, newest first; when every point has one, they are the values of the six newest points in order |
| Regimes.CpiConfig | economic_regimes.py:16-45 | a CPI configuration exists exactly for the seven currencies, and only CHF has no core series |
| Regimes.SeriesOf | economic_regimes.py:174-189 | a series exists exactly when readings were returned; its current value is the first and its history all of them |
| Regimes.FetchCpiData | economic_regimes.py:157-195 | an unknown currency has neither series; a known one has the headline series of its event id, and a core series only when it is configured |
| Regimes.PmiManufacturingId | economic_regimes.py:471-483 | a PMI event id exists exactly for the seven currencies |
| Regimes.FetchPmiHistory | economic_regimes.py:462-485 | at most six readings; none for an unknown currency, else the event data of its id |
| Regimes.Window | economic_regimes.py:563 | `history[1:4]` of a history of at least three readings has two or three entries |
| Regimes.RecentAverage | economic_regimes.py:561-567 | with at least three readings, the mean of `history[1:4]`, which lies between the smallest and largest reading after the newest; no average otherwise |
| Regimes.RecentAverageIsCalculateDelta | economic_regimes.py:561-566 | the pipeline's inline delta equals `calculate_delta(current, history, 3)` |
| Regimes.PmiTrend | economic_regimes.py:560-573 | with fewer than three readings the PMI delta is composite − 50 with average 50.0; otherwise the delta is `calculate_delta` and the stored average is `round(mean of history[1:4], 1)` |
| Regimes.InflationTrend | economic_regimes.py:575-586 | the inflation delta is always `calculate_delta`; with fewer than three readings it is 0 and no average is stored; otherwise the stored average is `round(mean of history[1:4], 1)` |
| Regimes.CurrentOf | economic_regimes.py:544-548 | a headline reading exists exactly when the headline series does |
| Regimes.RegimeAnalysisOf | economic_regimes.py:488-606 | a regime is set exactly when there is no error, which holds exactly when the manufacturing PMI and the CPI headline both exist; a missing PMI gives the PMI error and leaves every other field empty; a missing CPI headline gives the CPI error with only the PMI fields, composite and PMI history filled; the regime, arrows and divergence come from the unrounded deltas |
| Regimes.StoredDeltasMayDisagree | economic_regimes.py:588-592 | the stored, rounded deltas need not classify to the stored regime: 0.104/0.05 is reflazione, while the rounded 0.1/0.05 would be deflazione |
| Regimes.AnalyzeCurrencyRegime | economic_regimes.py:488-606 | the result dict filled field by field equals `RegimeAnalysisOf` |
| Regimes.PmiDelta | economic_regimes.py:560-573 | the PMI delta and stored average are those of `PmiTrend` |
| Regimes.InflationDelta | economic_regimes.py:575-586 | the inflation delta and stored average are those of `InflationTrend` |
| Regimes.PmiFor | economic_regimes.py:621 | a currency without PMI data gets an empty PMI record |
| Regimes.AnalyzeAllRegimes | economic_regimes.py:609-623 | exactly one entry per CPI currency, each the analysis of that currency with its PMI data |
| Regimes.AnalysisScore | economic_regimes.py:334-345 | the forex score of a classified currency is non-zero, in [-2, 2], and positive exactly for espansione and reflazione |
| ForexAnalyzer.GetBiasColor | forex_analyzer_claude.py:705-711 | bullish gives double green iff abs(diff) ≥ 4, else single green; bearish the same with red; any other bias gives white |
| ForexAnalyzer.BiasColorSymmetry | forex_analyzer_claude.py:705-711 | the icon depends on the diff only through its size, and bearish is the mirror of bullish |
| ForexAnalyzer.ParseDate | forex_analyzer_claude.py:698 | a date accepted by `strptime("%Y-%m-%d")` is a valid calendar date |
| ForexAnalyzer.Pad2 | forex_analyzer_claude.py:699 | `%d` and `%m` write two digits that read back as the number |
| ForexAnalyzer.Pad4 | forex_analyzer_claude.py:699 | `%Y` writes four digits that read back as the year |
| ForexAnalyzer.ParseIsoDate | forex_analyzer_claude.py:696-702 | parsing the ISO form of a valid date gives the date back |
| ForexAnalyzer.FormatDateIta | forex_analyzer_claude.py:696-702 | an unparseable string is returned unchanged; a parseable one becomes DD/MM/YYYY of the same date |
| ForexAnalyzer.FormatDateItaOfIso | forex_analyzer_claude.py:696-702 | YYYY-MM-DD becomes DD/MM/YYYY |
| ForexAnalyzer.FormatDatetimeDisplay | forex_analyzer_claude.py:349-361 | a string with two or more '_' is returned unchanged; one without '_' is formatted as a date; with one '_', an unparseable date part leaves the string unchanged, and a parseable one gives DD/MM/YYYY, a space and the time part with '-' turned into ':' |
| ForexAnalyzer.SplitAtOnly | forex_analyzer_claude.py:352 | splitting at the only separator gives the two sides |
| ForexAnalyzer.SplitOnce | forex_analyzer_claude.py:352 | a string with one separator splits into the text before it and the text after it |
| ForexAnalyzer.FormatDatetimeOfStamp | forex_analyzer_claude.py:349-361 | YYYY-MM-DD_HH-MM becomes "DD/MM/YYYY HH:MM" |
| ForexAnalyzer.BeforeExcludes | forex_analyzer_claude.py:657-659 | the text before the first fence contains no fence |
| ForexAnalyzer.JsonFenceIsFence | forex_analyzer_claude.py:656-659 | a reply containing "```json" contains "```" |
| ForexAnalyzer.FenceContent | forex_analyzer_claude.py:656-659 | a reply without a fence is unchanged; otherwise the kept text contains no fence. After the first "```json" it is the text up to the next "```json", then cut at its first fence (`split("```json")[1].split("```")[0]`); without "```json" it lies between the first two fences |
| ForexAnalyzer.BraceSpan | forex_analyzer_claude.py:664-669 | without a '{' before the last '}' the text is unchanged; otherwise it is cut from the first '{' to the last '}', so it starts with '{' and ends with '}' |
| ForexAnalyzer.CleanReply | forex_analyzer_claude.py:656-669 | the cleaned reply is `BraceSpan(Strip(FenceContent(reply)))`: the fence-free piece of `FenceContent` (json piece up to the next "```json", then to its first fence), stripped, then cut to the brace span |
| ForexAnalyzer.CutBraces | forex_analyzer_claude.py:665-669 | the slice taken with `find('{')` and `rfind('}')` is the brace span |
| ForexAnalyzer.CutToBraces | forex_analyzer_claude.py:665-669 | the brace span is the input when one of the braces is missing, and otherwise begins at the first '{' and ends at the last '}' |
| ForexAnalyzer.DropFences | forex_analyzer_claude.py:656-659 | the reply after the `if`/`elif` on fences is `FenceContent(reply)`: the piece after the first "```json" and before the next "```json", cut at its first fence; or the text between the first two fences |
| ForexAnalyzer.FenceContentSecondJsonFence | forex_analyzer_claude.py:657 | "```json1````json" keeps "1`": the second "```json" ends the piece before the plain-fence split |
| ForexAnalyzer.CleanBareObject | forex_analyzer_claude.py:656-669 | a reply that is a bare object up to whitespace comes out as that object, stripped |
| ForexAnalyzer.FillCurrenciesData | forex_analyzer_claude.py:674-675 | a missing or empty `currencies_data` is replaced by the TradingEconomics data, a non-empty one is kept, and no other key changes |
| ForexAnalyzer.IntValue | forex_analyzer_claude.py:932-947 | only an int or a bool can be summed and shown with `:+d`: an int as itself, a bool as 0/1 |
| ForexAnalyzer.GetScoreInfo | forex_analyzer_claude.py:897-901 | a missing key scores 0, an object its "score" (0 when absent), an int itself, a bool 0/1, any other value 0 |
| ForexAnalyzer.SumScoresEmpty | forex_analyzer_claude.py:932-944 | with no scores the parameters sum to 0 |
| ForexAnalyzer.SumScoresDefined | forex_analyzer_claude.py:932-935 | the sum exists exactly when every parameter's score can be summed |
| ForexAnalyzer.ScoresOf | forex_analyzer_claude.py:895 | a missing scores key gives an empty object; a present one gives its fields exactly when it is an object, and nothing (the view raises) otherwise |
| ForexAnalyzer.DetailTotal | forex_analyzer_claude.py:932-947 | the total accumulated over the six parameters, or the reply's own total when present, is `DisplayedTotal` |
| ForexAnalyzer.DisplayedTotalDefaults | forex_analyzer_claude.py:932-947 | a pair without scores or total shows 0, and a pair with an int total shows that total |
| ForexAnalyzer.FileNameRoundTrip | forex_analyzer_claude.py:330-332 | a record saved as `analysis_{dt}.json` (line 279) is a listed analysis file, and its date key is `dt` again |
| ForexAnalyzer.NoPrefixWithoutA | forex_analyzer_claude.py:332 | a key without the letter 'a' cannot contain "analysis_" |
| ForexAnalyzer.StampRoundTrip | forex_analyzer_claude.py:330-332 | every YYYY-MM-DD_HH-MM key round-trips through its file name |
| ForexAnalyzer.NotLessTransitive | forex_analyzer_claude.py:336 | "not smaller than" is transitive, so newest-first is a consistent order |
| ForexAnalyzer.Insert | forex_analyzer_claude.py:336 | inserting into a newest-first list keeps it newest-first and adds exactly that element |
| ForexAnalyzer.SortDescending | forex_analyzer_claude.py:336 | `sorted(dates, reverse=True)` is newest-first and a permutation of its input |
| ForexAnalyzer.DatesOf | forex_analyzer_claude.py:330-335 | at most one key per file, and the key of every listed analysis file is among them |
| ForexAnalyzer.DatesOfStep | forex_analyzer_claude.py:330-335 | each listed file adds its key when it matches `analysis_*.json` and nothing otherwise |
| ForexAnalyzer.GetAvailableDates | forex_analyzer_claude.py:321-337 | the listed keys sorted newest-first, a permutation of the keys collected |
| ForexAnalyzer.CollectDates | forex_analyzer_claude.py:330-335 | the append loop collects `DatesOf` |
| ForexAnalyzer.SavedIsAvailable | forex_analyzer_claude.py:321-337 | a record saved under `dt` appears among the available dates |
| ForexAnalyzer.GetLatestAnalysis | forex_analyzer_claude.py:341-345 | None when no analysis file is listed; otherwise the loaded analysis of a listed key that no other listed key is newer than |
| ForexAnalyzer.Defaults | forex_analyzer_claude.py:399-408 | the reader starts with exactly the eight indicator keys, each "N/A" |
| ForexAnalyzer.MatchFrom | forex_analyzer_claude.py:433-434 | the first `INDICATORS_MAP` entry whose lower-cased name occurs in the lower-cased cell, with no earlier entry matching |
| ForexAnalyzer.RowKey | forex_analyzer_claude.py:426-434 | a row has a key exactly when it has at least two cells and some `INDICATORS_MAP` entry matches its first cell; the key is the one of the first matching entry, one of the eight |
| ForexAnalyzer.CleanValue | forex_analyzer_claude.py:436-442 | when the text without '%', stripped, parses as a float that text is stored (it has no '%'); otherwise the raw cell is stored |
| ForexAnalyzer.StripKeepsOut | forex_analyzer_claude.py:436 | stripping whitespace adds no character |
| ForexAnalyzer.FetchTradingEconomicsData | forex_analyzer_claude.py:390-447 | the nested loops over tables, rows and the indicator map compute `TradingEconomicsData` |
| ForexAnalyzer.ReadTable | forex_analyzer_claude.py:424-443 | the rows of one table applied in order |
| ForexAnalyzer.ReadRow | forex_analyzer_claude.py:426-443 | only the first matching indicator of a row is applied |
| ForexAnalyzer.ApplyRowsConcat | forex_analyzer_claude.py:423-443 | applying two runs of rows one after the other is applying them together |
| ForexAnalyzer.ApplyRowsKeys | forex_analyzer_claude.py:423-443 | rows never add or remove an indicator key |
| ForexAnalyzer.TradingEconomicsKeys | forex_analyzer_claude.py:390-447 | for a known currency the result has exactly the eight indicator keys |
| ForexAnalyzer.LastMatchWins | forex_analyzer_claude.py:423-443 | a key holds the cleaned value of the last row that matches it |
| ForexAnalyzer.LaterRowsKeep | forex_analyzer_claude.py:423-443 | rows after the last match for a key leave its value alone |
| ForexAnalyzer.ApplyRowEffect | forex_analyzer_claude.py:426-443 | one row sets its matched key to the cleaned value and leaves every other key unchanged |
| ForexAnalyzer.KeyStays | forex_analyzer_claude.py:423-443 | a key present before the rows is present after them |
| ForexAnalyzer.UnmatchedKeyKept | forex_analyzer_claude.py:399-443 | a key no row matches keeps its value, "N/A" from the defaults |
| MacroFetcher.CurrencyIndex | macro_data_fetcher.py:29-101 | the position of a supported currency in the currency list |
| MacroFetcher.FredCode | macro_data_fetcher.py:29-101 | a FRED series exists for an indicator exactly for the seven currencies |
| MacroFetcher.Range | macro_data_fetcher.py:383-401 | each validator's range is a proper interval |
| MacroFetcher.ValidatorBounds | macro_data_fetcher.py:383-401 | each validator accepts both ends of its closed range and nothing beyond them, and rejects None and non-finite values |
| MacroFetcher.FirstUsable | macro_data_fetcher.py:121-123 | the first observation whose value is neither "." nor missing, with none before it usable |
| MacroFetcher.FredResult | macro_data_fetcher.py:105-132 | a result comes from a response and its first usable observation, tagged FRED |
| MacroFetcher.FetchFred | macro_data_fetcher.py:105-132 | the early-return loop computes `FredResult` |
| MacroFetcher.FredSkipsMissing | macro_data_fetcher.py:121-129 | leading "." observations are skipped and the first usable one decides |
| MacroFetcher.LastHit | macro_data_fetcher.py:233-249 | no line hits and there is no result, or the result is the hit of a line after which no line hits |
| MacroFetcher.LastHitStep | macro_data_fetcher.py:233-249 | scanning from the end, a line that hits decides and one that misses passes to the lines before it |
| MacroFetcher.BoeLine | macro_data_fetcher.py:234-247 | a line gives a rate exactly when it is not blank, does not start with "DATE", has a second comma field, and that field without blanks and quotes is non-empty and parses; the rate is that number, dated by the unquoted first field and tagged Bank of England |
| MacroFetcher.Lines | macro_data_fetcher.py:232 | `text.strip().split('\n')` has at least one line |
| MacroFetcher.ScanBack | macro_data_fetcher.py:235-249 | the reversed loop with early return computes `LastHit` |
| MacroFetcher.ParseBoe | macro_data_fetcher.py:219-252 | the backward scan with early return computes `BoeRate`, the last line that parses |
| MacroFetcher.SnbLine | macro_data_fetcher.py:323-335 | a line gives a rate exactly when it has two or more ';' fields and its last field, stripped with the decimal comma made a point, is neither empty nor "-" and parses; the rate is that number, dated by the stripped first field and tagged SNB |
| MacroFetcher.ParseSnb | macro_data_fetcher.py:313-338 | the backward scan after the header computes `SnbRate` |
| MacroFetcher.LastSensible | macro_data_fetcher.py:366-368 | the last match with 0 ≤ rate < 5, no later match being sensible |
| MacroFetcher.BojRate | macro_data_fetcher.py:364-373 | a rate exists exactly when some match is sensible; it is the rate and date of the last sensible match, tagged Bank of Japan, so finite and in [0, 5) |
| MacroFetcher.SelectBojRate | macro_data_fetcher.py:364-373 | the reversed loop computes `BojRate` |
| MacroFetcher.Checked | macro_data_fetcher.py:427-433 | a result is returned exactly when it exists and passes the validator, and then unchanged |
| MacroFetcher.GetInterestRate | macro_data_fetcher.py:403-433 | None for an unknown currency; any rate returned is finite and in [-2, 25] |
| MacroFetcher.NoFredFallback | macro_data_fetcher.py:403-433 | outside USD the interest rate never depends on FRED |
| MacroFetcher.InterestRateFromNative | macro_data_fetcher.py:426-433 | the native result is returned when it passes `_validate_rate`, and None otherwise |
| MacroFetcher.GetFromFred | macro_data_fetcher.py:435-470 | None for an unknown currency; for a known one a value is returned exactly when the first usable observation of the indicator's FRED series exists and passes its validator, and it is that observation |
| MacroFetcher.Getter | macro_data_fetcher.py:403-470 | any value a getter returns passes that indicator's validator |
| MacroFetcher.EntryOf | macro_data_fetcher.py:504-520 | an indicator entry has the indicator's name; value and date exist exactly when the getter returned a result; a missing result has source "N/A", and an exception has source "Error: " plus its message |
| MacroFetcher.IndicatorsOf | macro_data_fetcher.py:496-520 | every currency gets exactly the five indicator entries, each the entry written for that getter's outcome |
| MacroFetcher.AllDataOf | macro_data_fetcher.py:476-524 | the result carries the timestamp and source tag and has exactly the requested currencies, all seven by default, each with its country name and its five indicator entries |
| MacroFetcher.GetAllData | macro_data_fetcher.py:476-524 | the nested loops compute `AllDataOf` |
| MacroFetcher.AllDataShape | macro_data_fetcher.py:476-524 | every requested currency, all seven by default, has its country name and the entry of every indicator: the returned observation's value, date and source, None with source "N/A" for no result, or None with "Error: " and the message for an exception |
| MacroFetcher.AllDataValuesValid | macro_data_fetcher.py:476-524 | when the getters are the modelled ones, every value in the result passes its indicator's validator |

## Left out

- Network I/O is not modelled. This covers the CFTC, Investing.com, FRED, Bank
  of Canada, RBA, ECB, BoE, SNB, BoJ and TradingEconomics requests. Each
  response is an input.
- Supabase storage is not modelled: `save_to_supabase`, `load_from_supabase`,
  the regime history and every Supabase branch of the analysis history.
- The Streamlit UI and the language-model call with its prompt text are not
  modelled. No code computes the per-pair scores.
- user_manager.py is not part of this model. It is HTTP CRUD and a command line
  with no logic of its own.
- `_fetch_boc_rate`, `_fetch_rba_rate` and `_fetch_ecb_rate` are not modelled.
  Their parsing is JSON, HTML and SDMX access by the libraries, and each enters
  the model as its result.
- BeautifulSoup parsing and the regular-expression scraping for the RBA and the
  BoJ are not modelled. TradingEconomics rows are lists of cell texts, and the
  BoJ input is the list of (date, rate) matches.
- `np.percentile` with linear interpolation is a function parameter. pandas
  DataFrames are lists of weekly rows.
- `format_cot_for_display` formats its numbers as text (`{:+,}`, `{:.1f}`,
  cot_data.py:643-663). `RowFor` carries the raw numbers instead.
- The report of `fetch_and_update` holds the manager's live `debug_messages`
  list and `last_fetch_status` dict (cot_data.py:576-581), so later updates of
  the manager show through it. The model's report holds a copy of both, taken
  when the report is built.
- pandas' `to_numeric(..., errors='coerce')` can make a net position NaN. The
  model's net positions are integers, so a missing or malformed position is
  not modelled.
- The PMI and CPI histories keep each reading's value only. The date, year and
  month stored with each point by `fetch_investing_event_data` are left out,
  because no computation of the core reads them.
- The "Salvati" log line of `fetch_and_update` is left out with Supabase.
  The download's log lines are an input, their text as the download wrote it.
- The Investing.com download and its ordering in `fetch_investing_event_data`
  are not modelled. The feed gives the points in the order the source returns
  them.
- Floats are exact reals: no IEEE rounding, no overflow. `inf` and `nan` exist
  only as `NonFinite`, which every validator rejects.
- `float()` of a string does not accept '_' digit grouping or non-ASCII digits.
  `str.lower()` is ASCII only.
- ForexAnalyzer.ParseDate: digits are ASCII only. In CPython, `strptime`'s
  `%Y` (four `\d`) and the `[12]\d` form of `%d` also accept other Unicode
  decimal digits. The model rejects such a date, so `FormatDateIta` and
  `FormatDatetimeDisplay` return it unchanged where the source would reformat it.
- `strftime('%Y')` is modelled for years of four digits. The platform-dependent
  padding of years below 1000 is not.
- Timestamps (`datetime.now()`, `last_update`, the debug-log time) are not
  modelled, and neither are console printing or `time.sleep`.
- Display strings are not modelled: emoji, colours, descriptions,
  interpretation texts, the `regime_info` display fields and the messages of
  `calculate_scores`.
- The unused `COT_INDEX_THRESHOLDS` table is not modelled.
- `get_cot_analysis`, `delete_analysis`, `format_for_display`,
  `fetch_all_currencies_data` and `search_qualitative_data` are not modelled.
  They are wrappers, UI or network code.
- `json.loads` is not modelled. The parsed reply is an input, and a reply whose
  top level is not an object is not modelled.
- The FRED `limit` and `sort_order` request parameters are not modelled. The
  observations are given in the order the service returns them.
- In `get_all_data`, each getter outcome is a function of (currency, indicator).
  A repeated request is taken to give the same answer.
- The `data/` folder is a listing of file names in `glob` order and a map from
  date key to parsed file. File-system errors are not modelled.
- Regimes.CalculateDelta: its contract states only the cases that give 0.0:
  empty or short history, and no value in the window. The averaged case is stated through `RecentAverageIsCalculateDelta`
  and `CalculateDeltaSign`.
- MacroFetcher.GetInterestRate: its contract states the bounds of any returned
  rate. That the native result is returned exactly when it validates is in
  `InterestRateFromNative`.
- Cot.CotScoreOfAnalysis: the property follows from the contracts of
  `AnalyzeAll` and `CotScoreFor`. It is stated as a lemma for the reader.
