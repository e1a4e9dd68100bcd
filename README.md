# EIA salt storage vs. Henry Hub price — a Dafny model of the data core

This project models the data-acquisition and alignment core of `eia_storage_plot`. The core
gathers three weekly series from the U.S. Energy Information Administration:
- South Central salt-cavern storage;
- Lower-48 total storage;
- the Henry Hub spot price, daily and averaged into weeks, or weekly.

Each series comes from a chain of fallbacks (JSON API v2, JSON API v1, XLS workbook, HTML
page). The core then clips each series to the requested window and inner-joins the three on
the week-ending Friday. The plotting module's season selection is modelled too.

Modules, one per concern of `src/eia_storage_plot/fetch.py` and `plot.py`:

- `Base`: `Option`, `Result` and the exceptions the core raises or catches.
- `Dates`:
  - Dates are day numbers counted from 1970-01-01, which was a Thursday, so a Friday is a
    day `d` with `d % 7 == 1`.
  - The `W-FRI` week label of a day.
  - The civil calendar, used for `.dt.year` and `.dt.month`.
- `Frames`:
  - A `period,value` frame is a sequence of observations. A NaN value is `None`.
  - Sorting by period, and `_clip`.
- `Transport`: `_http_get`, the bounded retry loop with exponential backoff.
  - The network is a script holding what each attempt produced.
  - Each sleep is recorded as its exponent, `attempt`.
- `Detect`: the column-pair detector shared by the XLS and HTML normalizers. It is
  imperative, like the source: it walks every table and the column pairs in
  `itertools.product` order. Its result is specified as "the first pair with the highest
  score, provided that score is at least 10".
- `Normalize`: the v1, v2, XLS and HTML normalizers.
- `Chain`: `_try_chain`, the source adapters and the four `fetch_*` wrappers.
- `Align`: `build_weekly_join`. It covers:
  - the `W-FRI` mean resample of the daily price;
  - the weekly fallback;
  - the two-step inner merge;
  - `_daterange_summary`;
  - the two diagnostic `RuntimeError`s.
- `Plot`: `select_apr_oct_last5`.

Behaviour of the code worth noting:

- **4xx retries.** A 4xx status other than 429 is not surfaced at once.
  - `raise_for_status` raises `HTTPError`.
  - The retry loop catches it as a `RequestException` and retries.
  - This is `Transport.Judge`.
- **Unparseable window.** A window bound that does not parse is not rejected up front.
  - Most unparseable strings make `pd.to_datetime` inside `_clip` raise in every step.
  - A bound that pandas reads as NaT (`""`, `"NaT"`) does not raise: every comparison with it is false, so each clip is empty.
  - Either way no step is usable: `_try_chain` swallows the exceptions and skips the empty clips, so each `fetch_*` returns an empty frame.
  - `build_weekly_join` then reports the price as unavailable.
  - See the last ensures of `Chain.FetchClipped`.
- **Duplicate periods.** They are not deduplicated before the merge.
  - Each left row is joined with every matching right row, as pandas does.
  - `Align.InnerJoinLength` proves that the merge has one row per salt row and pair of matching right rows.
  - When the right-hand frames have unique periods, `Align.InnerJoinCountsJoinableRows` proves that the merge has exactly one row per salt row whose period the other two frames share. `Align.InnerJoinAtMostOnePerRow` proves that it has no more rows than the salt frame.

## Model

| member | source | states |
|---|---|---|
| `Transport.Judge` | src/eia_storage_plot/fetch.py:49-62 | a response is handed back exactly when its status is below 400; 5xx and 429 back off without an exception; any other 4xx backs off holding `HTTPError`; a raised `RequestException` backs off holding that exception; any other exception escapes |
| `Transport.LastCaught` | src/eia_storage_plot/fetch.py:58-59 | `last_exc` is the exception of the last attempt that backed off holding one (no later attempt caught any), and is empty exactly when no attempt raised or failed `raise_for_status` |
| `Transport.ExhaustedError` | src/eia_storage_plot/fetch.py:63-65 | the raised error is the last caught exception when there is one, and `RuntimeError("Unknown HTTP error contacting EIA")` exactly when there is none |
| `Transport.HttpGet` | src/eia_storage_plot/fetch.py:46-65 | at most `retries` attempts; the k-th wait is `backoff_base ** k` and follows a backed-off attempt; success only from the first attempt that does not back off, never with a status of 400 or more; a loop that stops before `retries` attempts stops on an attempt that did not back off; foreign exceptions escape at once; exhaustion raises the last caught exception or the `RuntimeError`; `retries <= 0` makes no attempt |
| `Detect.PairRows` | src/eia_storage_plot/fetch.py:104-107 | the pair's frame has at most one row per table row |
| `Detect.PairRowsParsed` | src/eia_storage_plot/fetch.py:104-107 | the pair's frame has at most one row per table row, and every value in it parsed |
| `Detect.PairRowsCounts` | src/eia_storage_plot/fetch.py:104-107 | a row occurs in the pair's frame exactly as often as there are table rows whose date and value cells parse to it |
| `Detect.PairRowsFromCells` | src/eia_storage_plot/fetch.py:104-107 | a row is in the pair's frame exactly when some table row's date and value cells both parse to it |
| `Detect.ScoreCountsParsedRows` | src/eia_storage_plot/fetch.py:104-108 | the score `len(d)` is the number of rows where both cells parse |
| `Detect.Consider` | src/eia_storage_plot/fetch.py:109-111 | the update of `best`: a lead once held is never lost and its score never drops; a lead always reaches the floor of 10 (its exact choice is stated by `Detect.ConsiderPair` and `Detect.ConsiderStep`) |
| `Detect.ConsiderPair` | src/eia_storage_plot/fetch.py:102-111 | one loop pass moves the scanned prefix one pair on, keeping the lead the first highest score at or above the floor |
| `Detect.ConsiderStep` | src/eia_storage_plot/fetch.py:109-111 | one loop pass keeps "first highest score at or above the floor among the pairs scanned so far" true |
| `Detect.ScanValueColumns` | src/eia_storage_plot/fetch.py:101-111 | after every value column of one date column, the lead is the best of all pairs before the next date column |
| `Detect.ScanTable` | src/eia_storage_plot/fetch.py:124-138 | after every pair of one table, the lead is the best of all pairs of the tables so far |
| `Detect.ScanTables` | src/eia_storage_plot/fetch.py:124-138 | after every table, the lead is the first pair in search order with the highest score at or above the floor, or none when no pair reaches it |
| `Detect.DetectPair` | src/eia_storage_plot/fetch.py:99-111 | the result is `None` exactly when no pair of distinct columns scores at least 10; otherwise it is the first pair in product order with the highest score, with its frame sorted by period |
| `Detect.BestIsUnique` | src/eia_storage_plot/fetch.py:109-111 | the strict `>` tie-break makes the outcome unique |
| `Detect.PlantedPairWins` | src/eia_storage_plot/fetch.py:101-111 | a pair that is the only one reaching the floor is the one picked |
| `Normalize.DatedRows` | src/eia_storage_plot/fetch.py:79-82 | the v1 rows are exactly the points whose period parsed, NaN values kept |
| `Normalize.DatedRowsCounts` | src/eia_storage_plot/fetch.py:82 | `dropna(subset=["period"])` keeps every dated point as often as it occurs |
| `Normalize.CompleteRows` | src/eia_storage_plot/fetch.py:91-93 | the v2 rows are exactly the records whose period and value both parsed |
| `Normalize.CompleteRowsCounts` | src/eia_storage_plot/fetch.py:93 | `dropna(subset=["period", "value"])` keeps every complete record as often as it occurs and no NaN row |
| `Normalize.NormalizeV1` | src/eia_storage_plot/fetch.py:72-83 | sorted by period; empty without a series; otherwise a permutation of the dated rows of the first series |
| `Normalize.NormalizeV2` | src/eia_storage_plot/fetch.py:86-94 | sorted by period and a permutation of the complete records |
| `Normalize.CompleteRowsHaveValues` | src/eia_storage_plot/fetch.py:93 | the v2 frame has no NaN value |
| `Normalize.XlsFrame` | src/eia_storage_plot/fetch.py:112-118 | the winning pair's frame when there is one; otherwise the sorted frame of columns 0 and 1 with no floor, and `IndexError` exactly when the sheet is narrower than two columns |
| `Normalize.NormalizeXls` | src/eia_storage_plot/fetch.py:97-118 | the detector's pick if one reaches the floor; otherwise columns 0 and 1 with no floor, or `IndexError` for a sheet narrower than two columns; the frame is sorted |
| `Normalize.XlsFallbackBelowFloor` | src/eia_storage_plot/fetch.py:112-117 | the columns-(0,1) fallback yields fewer than 10 rows |
| `Normalize.NormalizeHtml` | src/eia_storage_plot/fetch.py:121-139 | the best pair over all tables in order, or an empty frame; sorted |
| `Frames.SortByPeriod` | src/eia_storage_plot/fetch.py:82 | `sort_values("period")` gives a sorted permutation |
| `Frames.SortBy` | src/eia_storage_plot/plot.py:23 | sorting by a key gives a sorted permutation of the same length |
| `Frames.Clip` | src/eia_storage_plot/fetch.py:142-144 | a row is kept exactly when its period lies in `[start, end]` |
| `Frames.ClipIsSubsequence` | src/eia_storage_plot/fetch.py:144 | clipping keeps the frame's row order |
| `Frames.ClipIdempotent` | src/eia_storage_plot/fetch.py:142-144 | clipping twice to the same window changes nothing |
| `Frames.ClipKeepsSorted` | src/eia_storage_plot/fetch.py:144 | a sorted frame stays sorted |
| `Frames.ClipMultiset` | src/eia_storage_plot/fetch.py:144 | each kept row keeps its multiplicity |
| `Frames.MinPeriod` | src/eia_storage_plot/fetch.py:243 | `min()` is a period of the frame and bounds every period from below |
| `Frames.MaxPeriod` | src/eia_storage_plot/fetch.py:243 | `max()` is a period of the frame and bounds every period from above |
| `Chain.TryChain` | src/eia_storage_plot/fetch.py:177-189 | the first step giving a non-empty frame wins and no later step is called; exceptions are swallowed; with no usable step the result is the empty frame and every step was called |
| `Chain.ClipStep` | src/eia_storage_plot/fetch.py:142-144 | the step is usable exactly when the source returned, both bounds parse and the clipped frame is non-empty, and then it is that clipped frame; a source that raised fails with its exception; an unparseable bound fails with `ValueError` |
| `Chain.JsonSource` | src/eia_storage_plot/fetch.py:151-154 | a failed GET or `r.json()` raises, otherwise the decoded payload is normalized; with a normalizer that always sorts by period, a successful source is sorted |
| `Chain.XlsSource` | src/eia_storage_plot/fetch.py:156-161 | a failed GET or workbook read raises, otherwise the sheet goes through the XLS normalizer; a successful source is sorted by period |
| `Chain.HtmlSource` | src/eia_storage_plot/fetch.py:121-122 | a failed `read_html` raises, otherwise the tables go through the HTML normalizer; a successful source is sorted by period |
| `Chain.FetchClipped` | src/eia_storage_plot/fetch.py:192-198 | the result is the first source's clipped frame that is non-empty; every row lies in the window; an unparseable window gives an empty frame; when every source that succeeds is sorted by period, so is the result |
| `Chain.FetchWeekly` | src/eia_storage_plot/fetch.py:192-207 | `fetch_salt_weekly`, `fetch_us_total_weekly` and (lines 223-233) `fetch_henry_hub_weekly`: v1, then XLS, then HTML; the first non-empty clipped frame, or empty; the result is sorted by period whenever the three sources are (every source built by `Chain.JsonSource`, `Chain.XlsSource` or `Chain.HtmlSource` is) |
| `Chain.FetchHenryHubDaily` | src/eia_storage_plot/fetch.py:210-220 | v2, then v1, then XLS, then HTML: the first non-empty clipped frame, or empty; sorted by period whenever the four sources are |
| `Dates.FridayOnOrAfter` | src/eia_storage_plot/fetch.py:265 | the `W-FRI` label of a day is the first Friday on or after it, less than a week later |
| `Dates.WeekOfIff` | src/eia_storage_plot/fetch.py:265 | a day is labelled with Friday `f` exactly when it lies in `(f - 7, f]` |
| `Dates.FridayOnOrAfterMonotone` | src/eia_storage_plot/fetch.py:265 | later days get later or equal labels, a whole number of weeks apart |
| `Dates.FridayPlusWeeks` | src/eia_storage_plot/fetch.py:265 | whole weeks after a Friday are Fridays |
| `Dates.SampleFridayDate` | src/eia_storage_plot/plot.py:19-20 | day 19937 is 2024-08-02 |
| `Dates.SampleTodayDate` | src/eia_storage_plot/plot.py:11 | day 20348 is 2025-09-17 |
| `Align.Mean` | src/eia_storage_plot/fetch.py:266 | NaN exactly when the bin has no number; otherwise the mean times the count of numbers is their sum |
| `Align.MeanWithinBounds` | src/eia_storage_plot/fetch.py:266 | the mean lies within any bounds that hold for every number of the bin |
| `Align.MeanIsNaNIff` | src/eia_storage_plot/fetch.py:266 | a bin's mean is NaN exactly when every value in it is NaN, or it is empty |
| `Align.BinValuesMembers` | src/eia_storage_plot/fetch.py:264-266 | a bin holds exactly the values of the rows dated in its week |
| `Align.BinValuesIsClip` | src/eia_storage_plot/fetch.py:264-266 | a bin is the value column of the frame clipped to its seven days `f - 6 .. f`: each value as often as it occurs, in frame order |
| `Align.EmptyBin` | src/eia_storage_plot/fetch.py:264-266 | a week without rows has an empty bin |
| `Align.WeeksFrom` | src/eia_storage_plot/fetch.py:264-266 | one row per consecutive Friday, each holding the mean of its week |
| `Align.ResampleWeekly` | src/eia_storage_plot/fetch.py:262-269 | the weekly frame runs over consecutive Fridays from the label of the first day to the label of the last; each row holds its week's mean |
| `Align.ResampleSortedUnique` | src/eia_storage_plot/fetch.py:264-266 | the weekly frame is sorted, with one row per Friday |
| `Align.ResampleCovers` | src/eia_storage_plot/fetch.py:264-266 | every daily row falls in exactly one weekly row, the one labelled with its `W-FRI` Friday |
| `Align.ResampleGapWeekIsNaN` | src/eia_storage_plot/fetch.py:264-266 | a week without daily rows inside the span is kept, with NaN |
| `Align.ResampleExample` | src/eia_storage_plot/fetch.py:262-269 | 2.0, 2.2 (Thu, Fri) and 2.4, 2.6 (Mon, Fri) average to 2.1 and 2.5 on consecutive Fridays |
| `Align.MatchesMembers` | src/eia_storage_plot/fetch.py:285 | the right-hand matches of a period are exactly the values of the rows with that period |
| `Align.MatchesUnique` | src/eia_storage_plot/fetch.py:285 | a frame with unique periods has at most one match |
| `Align.CombineMembers` | src/eia_storage_plot/fetch.py:285 | a left row's block holds exactly the rows pairing it with one U.S.-total match and one price match |
| `Align.InnerJoin` | src/eia_storage_plot/fetch.py:285 | the merge is empty when any of the three frames is |
| `Align.InnerJoinMembers` | src/eia_storage_plot/fetch.py:285 | a merged row is exactly a choice of one row from each frame, all with its period and values |
| `Align.InnerJoinPeriods` | src/eia_storage_plot/fetch.py:285 | a period is in the merge exactly when it is in all three frames |
| `Align.InnerJoinSorted` | src/eia_storage_plot/fetch.py:285 | the merge keeps the left order, so a sorted salt frame gives a sorted merge |
| `Align.MatchesPresent` | src/eia_storage_plot/fetch.py:285 | a period has a match in a frame exactly when the frame has a row of that period |
| `Align.CombineLength` | src/eia_storage_plot/fetch.py:285 | one salt row yields one merged row per pair of U.S.-total and price matches |
| `Align.InnerJoinLength` | src/eia_storage_plot/fetch.py:285 | the merge's length is the many-to-many count: the sum over salt rows of U.S.-total matches times price matches |
| `Align.InnerJoinCountsJoinableRows` | src/eia_storage_plot/fetch.py:285 | with unique right-hand periods, the merge has exactly as many rows as there are salt rows whose period both other frames have |
| `Align.InnerJoinAtMostOnePerRow` | src/eia_storage_plot/fetch.py:285 | with unique right-hand periods the merge has no more rows than the salt frame |
| `Align.InnerJoinExample` | src/eia_storage_plot/fetch.py:285 | salt in weeks 1–3, U.S. total in weeks 2–3 and price in weeks 1–2 merge to the week-2 row alone |
| `Align.DateRangeSummary` | src/eia_storage_plot/fetch.py:240-243 | `"empty"` exactly for an empty frame; otherwise the least and greatest period, which bound every row, and the row count |
| `Align.WeeklyPrice` | src/eia_storage_plot/fetch.py:262-280 | the daily frame's `W-FRI` resample, on unique Fridays, is used whenever the daily frame has rows; otherwise the weekly series |
| `Align.BuildWeeklyJoin` | src/eia_storage_plot/fetch.py:245-300 | raises "price unavailable" exactly when daily and weekly prices are both empty; raises the empty-merge diagnostic with the three range summaries, the price source and the window when nothing overlaps; otherwise returns the non-empty inner merge, on Fridays when the daily price was used, and sorted by period when the salt frame is |
| `Plot.KeepInSeason` | src/eia_storage_plot/plot.py:15-22 | applies the mask of line 21 (`Plot.InSeason`): a row is kept exactly when its year is between `today.year - 5` and `today.year - 1` and its month between 4 and 10 |
| `Plot.KeepInSeasonCounts` | src/eia_storage_plot/plot.py:21-22 | the mask keeps each in-season row with its multiplicity and drops the others |
| `Plot.SelectAprOctLast5` | src/eia_storage_plot/plot.py:8-23 | the result is sorted by period and is a permutation of the in-season rows, with the same columns |
| `Plot.WindowIsFiveCompletedYears` | src/eia_storage_plot/plot.py:15-16 | the window is five years and ends before the current year |
| `Plot.SelectIdempotentRows` | src/eia_storage_plot/plot.py:8-23 | selecting twice with the same `today` keeps the same rows |
| `Plot.SelectExample` | src/eia_storage_plot/plot.py:10-11 | on 2025-09-17 the years kept are 2020 to 2024, and a row of 2024-08-02 is kept |

## Left out

- **Untouched code.** No network I/O, `time.sleep` or `print` logging is modelled, and `EIA_API_KEY` is not read from the environment.
  - What a request produces is a parameter: a script of attempts, a decoded payload or a parsed sheet.
  - The log messages of `_try_chain` and `build_weekly_join` are not modelled.
- `Transport.HttpGet`:
  - Waits are recorded as the exponent `k` of `backoff_base ** k`, not as floating-point seconds.
  - The script must hold at least `retries` attempts.
- **Parsing.** `pd.to_datetime` and `pd.to_numeric` with `errors="coerce"` are not modelled. Each cell or point carries its parse result.
- **Payload shapes.** The model's points always carry both fields.
  - v1 `data` rows that are not `[period, value]` pairs are not modelled.
  - A v2 record without a `period` or `value` key reads as NaT or NaN there. It is a point with `None` in that field, and it is dropped.
  - When no v2 record has a `period` key, pandas raises `KeyError` rather than returning an empty frame. The model returns the empty frame. `_try_chain` moves on to the next source in both cases, so the fetched series is the same.
- **Adapter plumbing.** URL and query construction are not modelled, nor is the `stream=True` / `r.raw` handling of the XLS download.
- **Sort order.** pandas' default sort is not stable. The model sorts stably, so its order among rows with equal periods is one of the orders pandas may produce.
- **Detector frame.** The detector's loop holds the leading pair's position and score. The pair's sorted frame is built once, after the search, not each time a pair takes the lead. The frame depends only on the pair, so the result is the same.
- **Merge order.** The merge row order for duplicate periods (left row, then U.S.-total match, then price match) follows pandas' documented left-order-preserving inner merge.
- **Calendar.** `Dates.CivilFromDays`, behind `.dt.year` and `.dt.month`, is the standard days-to-civil-date conversion. It is proved only for two sample dates (`Dates.SampleFridayDate`, `Dates.SampleTodayDate`); no general round-trip lemma is proved.
- `Chain.ClipStep`: a window bound that pandas reads as NaT (`""`, `"NaT"`) makes `_clip` return an empty frame without raising. The model folds that case into the failing `ValueError` case. Both steps are unusable, so `Chain.FetchClipped` returns `[]` either way.
- **Numbers.** Values are exact reals. The model does not capture floating-point rounding of the weekly sums and means, nor the `inf` or `-inf` that `pd.to_numeric` can produce.
- **`today`.** `today` defaults to `date.today()` in the source. It is always a parameter here.
- **Out of scope.** `_quad_fit`, the plotting functions of `plot.py` and `scripts/run_report.py` are outside the data core and are not part of this model.
