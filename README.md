# goldmonitor core, modelled in Dafny

goldmonitor is a monthly gold-market report. This project models and proves
properties of the parts of it that compute:

- **Metrics calculator.** It covers the derived series:
  - real gold price;
  - gold/S&P 500 ratio;
  - breakeven inflation;
  - rolling 5-year z-score;
  - row-count momentum.

  It also covers the merge of fresh data with the stored history, the flat
  metric map built by `calculate_all_metrics`, and the regime scorer
  (`calculate_regime_score`).
- **Central-bank monitor.** It covers:
  - how a quarter label is recognised in a link text and normalised;
  - the choice of the first quarter not yet announced, among the first five
    report links;
  - the status and freshness of the latest row of the hand-kept quarterly
    table.
- **Manual central-bank update.** It covers the quarter-format check and the
  overwrite-or-append upsert, driven by the user's answers.
- **Report generator.** It covers:
  - the 21-cell score bar;
  - the valuation, momentum, risk and central-bank interpretation ladders;
  - the "N/A" rules for numeric fields;
  - which central-bank section is shown.

The Dafny modules are:

| file | module | models |
|---|---|---|
| `wrappers.dfy` | `Wrappers` | `Option` |
| `frames.dfy` | `Frames` | frames (a column set and date-stamped rows of optional cells) |
| `derived_metrics.dfy` | `DerivedMetrics` | the static `calculate_*` helpers |
| `history_merge.dfy` | `HistoryMerge` | `concat` / `drop_duplicates` / `sort_index` of history and fresh data |
| `snapshot.dfy` | `Snapshot` | `calculate_all_metrics` |
| `cb_monitor.dfy` | `CentralBank` | quarter normalisation, `check_for_new_report`, `get_latest_data` |
| `regime_scorer.dfy` | `RegimeScorer` | `calculate_regime_score` |
| `manual_cb_update.dfy` | `ManualUpdate` | the format check and upsert of `interactive_update` |
| `report_generator.dfy` | `Report` | `_create_score_bar` and the computed parts of the metrics and central-bank sections |

Modelling conventions:

- **Cells.** A cell is `Option<real>`, with `None` standing for NaN. A
  division by zero, which pandas turns into an infinity, is an undefined
  cell here.
- **Dates.** Dates are whole day numbers.
- **Metric values.** A stored value is a `MetricValue`, one of:
  - a number;
  - a float NaN;
  - Python's `None`;
  - a text note;
  - a whole series.

  An absent key is absent from the map.
- **Score.** Every weight in the scorer is a multiple of 0.25, so the score
  is computed in whole quarter-points. `round(score, 2)` is proved to leave
  it unchanged.
- **Rolling std.** The standard deviation is an abstract function `std`. It
  is non-negative on windows of two or more values, and zero exactly when all
  the values are equal (`IsStd`).
- **External inputs.** The link texts of the reports page, the table file as
  read, the day of the check and the user's answers are all parameters.

## Model

| member | source | states |
|---|---|---|
| `Frames.Col` | src/metrics_calculator.py:40-43 | A column has one cell per row, the row's own value. |
| `DerivedMetrics.RealGoldPrice` | src/metrics_calculator.py:24-45 | With either column missing the series is empty. Otherwise it has one entry per row. Entry i is defined exactly when gold[i], cpi[i] and cpi[0] are defined and the CPI values are non-zero. It satisfies real·cpi[i] = gold[i]·cpi[0], i.e. CPI is rebased to the first row. |
| `DerivedMetrics.RealGoldPriceAtFirstRow` | src/metrics_calculator.py:40-43 | At the base row the real price equals the spot price. |
| `DerivedMetrics.RealGoldPriceWithoutBaseCpi` | src/metrics_calculator.py:40 | A NaN first CPI value makes every real price NaN. |
| `DerivedMetrics.GoldSpRatio` | src/metrics_calculator.py:102-118 | Empty without both columns. Otherwise one entry per row, defined exactly when both cells are and the S&P value is non-zero, and ratio·sp = gold. |
| `DerivedMetrics.BreakevenInflation` | src/metrics_calculator.py:121-136 | Empty without both columns. Otherwise one entry per row, defined exactly when both yields are, and breakeven + real = nominal. |
| `DerivedMetrics.Observed` | src/metrics_calculator.py:65-66 | The defined values of a window number at most the window's length. |
| `DerivedMetrics.ZScoreAt` | src/metrics_calculator.py:48-73 | The z-score at row i is defined exactly when four things hold: the value is defined, the trailing window has at least `min_periods` and at least two defined values, and those values are not all equal (std 0 is replaced by NaN). Then z·std = value − mean, and z has the sign of value − mean. |
| `DerivedMetrics.ZScore` | src/metrics_calculator.py:48-73 | The z-score series has one entry per row, each the windowed z-score at that row. |
| `DerivedMetrics.ZScoreNeedsHistory` | src/metrics_calculator.py:65-71 | Before `min_periods` rows the z-score is NaN, never 0. |
| `DerivedMetrics.ZScoreFlatWindow` | src/metrics_calculator.py:66-71 | A window of identical values gives NaN, not a division by zero. |
| `DerivedMetrics.Momentum` | src/metrics_calculator.py:76-99 | Defined exactly when the series has at least `days` rows, the last value is defined, and the value `days` rows from the end is defined and non-zero. Then (m + 1)·past = current. |
| `DerivedMetrics.MomentumSign` | src/metrics_calculator.py:99 | For a positive past value, momentum is positive or negative exactly when the series rose or fell. |
| `HistoryMerge.Pad` | src/metrics_calculator.py:161 | `concat` widens a row to all columns, filling missing cells with NaN and keeping date and present cells. |
| `HistoryMerge.Concat` | src/metrics_calculator.py:161 | The concatenation has the union of the columns and the history rows, then the fresh rows, each padded. |
| `HistoryMerge.DropDuplicatesSpec` | src/metrics_calculator.py:161 | `drop_duplicates` keeps exactly the cell tuples of its input, no two rows alike, each kept row being the first occurrence of its cells. |
| `HistoryMerge.FirstOccurrenceKept` | src/metrics_calculator.py:161 | Every first occurrence survives deduplication. |
| `HistoryMerge.SortByDateSpec` | src/metrics_calculator.py:162 | `sort_index` yields an ascending-by-date permutation of its input. |
| `HistoryMerge.SortByDateDistinct` | src/metrics_calculator.py:162 | Sorting keeps the rows pairwise distinct. |
| `HistoryMerge.MergeHistory` | src/metrics_calculator.py:158-162 | The frame the metrics use is well formed. |
| `HistoryMerge.MergeHistorySpec` | src/metrics_calculator.py:158-162 | With no history, or an empty one, the fresh frame is used unchanged. Otherwise the merged frame has these properties: the union of the columns; ascending dates; no two rows with equal cells; exactly the cells of history + fresh; every row the first occurrence of its cells; and non-empty when the fresh frame is. |
| `HistoryMerge.HistoryRowWins` | src/metrics_calculator.py:161 | When a fresh row repeats cells already in the history, the history row is the one kept. |
| `HistoryMerge.EqualCellsCollapse` | src/metrics_calculator.py:161-162 | Rows at different dates with equal cells collapse to the first, since the date index is ignored. |
| `HistoryMerge.ConflictingValuesBothKept` | src/metrics_calculator.py:161-162 | Two rows at one date with different values are both kept, history first. |
| `Snapshot.Stored` | src/metrics_calculator.py:167 | A last value is stored as a number when defined and as NaN otherwise; it is never dropped. |
| `Snapshot.AddMomentum` | src/metrics_calculator.py:193-213 | The nested loop sets `<metric>_momentum_<period>` for each listed metric present and each of 30/60/90 rows exactly when the momentum is defined, storing its value. No other key changes. |
| `Snapshot.AddCurrentValues` | src/metrics_calculator.py:215-231 | `<metric>_current` is set exactly when the column is present and its last cell is not NaN, to that cell. No other key changes. |
| `Snapshot.AddRealGold` | src/metrics_calculator.py:164-176 | Real-price keys exist exactly when gold and CPI columns do. The last value is stored as is, even when NaN, with the series beside it. An undefined last z-score is stored as `None` with the note "Insufficient history for 5Y z-score". |
| `Snapshot.AddGoldSp` | src/metrics_calculator.py:178-186 | The ratio key is set when the ratio is non-empty. Its z-score is set only when defined, never stored as `None`. |
| `Snapshot.AddBreakeven` | src/metrics_calculator.py:188-191 | The breakeven key is set when the series is non-empty, to its last value. |
| `Snapshot.AddSeriesMetrics` | src/metrics_calculator.py:164-191 | The three series blocks in order: real-price, ratio and breakeven keys each follow their rule, and no momentum or latest-value key is set yet. |
| `Snapshot.MetricsOfFrame` | src/metrics_calculator.py:164-231 | The series metrics and both loops together: every key follows its rule, and no other key is set. |
| `Snapshot.CalculateAllMetrics` | src/metrics_calculator.py:138-231 | The map computed from the fresh frame and optional history follows every key rule on the merged frame. |
| `Snapshot.ShortHistoryHasNoZScore` | src/metrics_calculator.py:170-186 | With fewer than 252 merged rows, the real-price z-score is `None` with its note and the ratio z-score is absent. |
| `CentralBank.SeparatorRun` | src/cb_monitor.py:97 | `[\s\-']+` consumes the longest run of separators. |
| `CentralBank.DigitRun` | src/cb_monitor.py:97 | `\d` consumes the longest run of digits. |
| `CentralBank.MatchAt` | src/cb_monitor.py:97 | A match at i starts with `Q` or `q` and a quarter digit 1-4; its year group is 2 to 4 digits. |
| `CentralBank.MatchAtYear` | src/cb_monitor.py:97 | A match's year is the text right after the separator run: the digit run there, cut to its first four digits; the run has at least one separator and at least two digits. |
| `CentralBank.MatchAtComplete` | src/cb_monitor.py:97 | Conversely, `Q`/`q`, a digit 1-4, k ≥ 1 separators and n ≥ 2 digits at i do match. The separator run is exactly those k characters, and the year has at least min(n, 4) digits. |
| `CentralBank.SearchFrom` | src/cb_monitor.py:97 | `re.search` finds the leftmost position where the pattern matches. |
| `CentralBank.NormalizeQuarter` | src/cb_monitor.py:97-107 | A label is found exactly when the text matches. It is `Q<n>_` plus the year, a two-digit year prefixed with "20". |
| `CentralBank.NormalizeQuarterReadsText` | src/cb_monitor.py:97-107 | At the leftmost match p, the label is `Q`, the quarter digit text[p+1], `_`, then the digits after the separators cut to four, with "20" before a two-digit year. |
| `CentralBank.NormalizeSpaceSeparated` | src/cb_monitor.py:95-107 | "Q3 2025" gives "Q3_2025". |
| `CentralBank.NormalizeHyphenSeparated` | src/cb_monitor.py:95-107 | "Q1-2025" gives "Q1_2025". |
| `CentralBank.NormalizeTwoDigitYear` | src/cb_monitor.py:95-107 | "Q4'24" gives "Q4_2024". |
| `CentralBank.NormalizeThreeDigitYear` | src/cb_monitor.py:103-107 | A three-digit year is kept as it is. |
| `CentralBank.NormalizeInsideText` | src/cb_monitor.py:97-107 | A lower-case `q` inside longer text is found and upper-cased. |
| `CentralBank.NormalizeRejects` | src/cb_monitor.py:97 | A fifth quarter and a missing separator are not matched. |
| `CentralBank.FoundQuarters` | src/cb_monitor.py:91-107 | Every found label is well formed, and there are no more labels than links. |
| `CentralBank.FindQuarters` | src/cb_monitor.py:91-107 | The loop collects exactly the labels of the links, in link order. |
| `CentralBank.FirstUnseen` | src/cb_monitor.py:111-130 | The selected quarter was found and not yet checked. Nothing is selected exactly when every found quarter was checked. |
| `CentralBank.FirstUnseenIsFirst` | src/cb_monitor.py:111-127 | Every quarter found before the selected one was already checked. |
| `CentralBank.NeverAnnouncedTwice` | src/cb_monitor.py:112-127 | Once a quarter is returned and recorded, no later check returns it again, against any record that extends the one it was added to. |
| `CentralBank.CentralBankMonitor.constructor` | src/cb_monitor.py:47-64 | The monitor starts from the recorded quarters. |
| `CentralBank.CentralBankMonitor.CheckForNewReport` | src/cb_monitor.py:72-130 | Only the first five links are examined. The result is the first unseen quarter among them, or none when the page fails. The record grows by exactly the returned quarter and otherwise stays unchanged. |
| `CentralBank.LatestData` | src/cb_monitor.py:208-251 | A missing file is 'missing', an unreadable one 'error', an empty table 'empty'. Otherwise the last row in file order is reported, with days_old = today − its date, is_stale iff days_old > 90, and status 'stale' iff is_stale, else 'current'. |
| `CentralBank.FreshnessBoundary` | src/cb_monitor.py:234-243 | 90 days old is current; 91 is stale. |
| `CentralBank.LatestIsLastRow` | src/cb_monitor.py:230-236 | The last row wins even when an earlier row holds a later quarter. |
| `RegimeScorer.MomentumStep` | src/metrics_calculator.py:274-287 | The shared momentum ladder maps < −0.02 to +2, < 0 to +1, > 0.02 to −2 and > 0 to −1, else 0. |
| `RegimeScorer.Reading` | src/metrics_calculator.py:272 | `metrics.get(key, 0)`: an absent key reads as 0, a present one as its value. |
| `RegimeScorer.RealYieldSignal` | src/metrics_calculator.py:271-287 | Gives no entry exactly for `None`, and otherwise a real-yield entry. A number weighs one point per step (±2, ±1, 0). NaN gives "Real yields stable". |
| `RegimeScorer.UsdSignal` | src/metrics_calculator.py:289-305 | Gives no entry exactly for `None`, and otherwise a dollar entry. A number weighs 0.75 per step (±1.5, ±0.75, 0). NaN gives "USD stable". |
| `RegimeScorer.LadderEntriesByWeight` | src/metrics_calculator.py:274-305 | Within each momentum ladder no two entries share a weight, so the weight a number gets fixes the entry. |
| `RegimeScorer.CbSignal` | src/metrics_calculator.py:307-325 | Exactly one central-bank entry, weighted between −1 and +2. It is "missing" exactly when the status is neither current nor stale. |
| `RegimeScorer.ValuationSignal` | src/metrics_calculator.py:327-336 | An entry only for a numeric z-score; it is overvalued, elevated or undervalued, and never raises the score. |
| `RegimeScorer.AssessmentOf` | src/metrics_calculator.py:338-358 | The bands as ranges: ≥ 3 bullish, [1,3) mildly bullish, (−1,1) neutral, (−3,−1] mildly bearish, ≤ −3 bearish. |
| `RegimeScorer.Round2` | src/metrics_calculator.py:361 | `round(x, 2)` is within 0.005 of x. |
| `RegimeScorer.Round2OfQuarters` | src/metrics_calculator.py:361 | Rounding a whole number of quarter-points to cents changes nothing. |
| `RegimeScorer.MomentumComponents` | src/metrics_calculator.py:268-305 | The first two ladders append exactly the momentum entries and add their weights. |
| `RegimeScorer.CollectComponents` | src/metrics_calculator.py:268-336 | The running score equals the total weight of the entries, which are appended in category order. |
| `RegimeScorer.CalculateRegimeScore` | src/metrics_calculator.py:249-366 | The components are the ladders' entries in category order. The score is the sum of their weights, a whole number of quarter-points within ±5.5. Band, conviction and action follow from the score. |
| `RegimeScorer.ComponentsSum` | src/metrics_calculator.py:268-336 | The rendered weights add up to the running score. |
| `RegimeScorer.SignalsShape` | src/metrics_calculator.py:268-336 | The list has 1 to 4 entries with exactly one central-bank entry. That entry follows the momentum entries and is followed by at most one valuation entry. |
| `RegimeScorer.ScoreWithinBounds` | src/metrics_calculator.py:268-336 | The score lies within ±5.5. |
| `RegimeScorer.SignalsWeight` | src/metrics_calculator.py:268-336 | The score is the sum of the four ladders' weights. |
| `RegimeScorer.ScoreBoundsAttained` | src/metrics_calculator.py:268-336 | +5.5 and −5.5 are both reached. |
| `RegimeScorer.MomentumStepAntitone` | src/metrics_calculator.py:274-287 | Lower momentum never scores lower. |
| `RegimeScorer.MomentumStepSymmetric` | src/metrics_calculator.py:274-287 | The cuts are symmetric about zero. |
| `RegimeScorer.ScoreAntitoneInRealYields` | src/metrics_calculator.py:271-287 | With all else fixed, lower real-yield momentum never lowers the score. |
| `RegimeScorer.ScoreAntitoneInDollar` | src/metrics_calculator.py:289-305 | With all else fixed, lower dollar momentum never lowers the score. |
| `RegimeScorer.CbWeightMonotone` | src/metrics_calculator.py:313-323 | More tonnes never lower the central-bank weight. |
| `RegimeScorer.AssessmentMonotone` | src/metrics_calculator.py:338-358 | A higher score never lands in a more bearish band. |
| `RegimeScorer.ValuationCuts` | src/metrics_calculator.py:327-336 | No entry within ±1.0; "elevated" on (1.0, 1.5]; −1 above 1.5; "undervalued" below −1.0. |
| `RegimeScorer.NoValuationWithoutZScore` | src/metrics_calculator.py:328-329 | A missing, `None` or NaN z-score adds no entry. |
| `RegimeScorer.CbMissingWithoutRows` | src/metrics_calculator.py:307-325 | A missing, unreadable or empty table reads as "CB data missing". |
| `RegimeScorer.CbSignalOfLatestRow` | src/metrics_calculator.py:307-323 | For the table's latest row, a stale row gives a zero-weight "stale" entry with its age. A current row is scored on its tonnes. |
| `RegimeScorer.WorkedExample` | src/metrics_calculator.py:268-358 | −2.5% real yields, −1% dollar, 300 t and z = 0.5 score 4.75, bullish, with three entries. |
| `RegimeScorer.AbsentMomentumReadsStable` | src/metrics_calculator.py:272-290 | An absent momentum key reads as 0 and gives a "stable" entry; only `None` gives no entry. |
| `ManualUpdate.Strip` | scripts/manual_cb_update.py:69 | `strip()` removes outer whitespace and leaves a string without it. |
| `ManualUpdate.StripIsInfix` | scripts/manual_cb_update.py:69 | The stripped text is the infix s[a..b], with only whitespace before a and from b on. |
| `ManualUpdate.IsYesMeans` | scripts/manual_cb_update.py:103-105 | A confirmation counts exactly when it is `y` or `Y` after stripping. |
| `ManualUpdate.QuarterCheckExamples` | scripts/manual_cb_update.py:73 | "Q1_2025" and "Q4_2025 final" pass. "q1_2025", "Q5_2025", "Q1_25" and "Q1-2025" fail. |
| `ManualUpdate.NormalizedQuarterCheck` | scripts/manual_cb_update.py:73 | A monitor label passes the manual check exactly when its year has four digits. |
| `ManualUpdate.RemoveQuarter` | scripts/manual_cb_update.py:119 | The filter removes every row of the quarter and keeps every other row. |
| `ManualUpdate.RemoveQuarterAppend` | scripts/manual_cb_update.py:119 | The filter keeps the other rows in order. |
| `ManualUpdate.RemoveAbsentQuarter` | scripts/manual_cb_update.py:114 | A table without the quarter is unchanged by the filter. |
| `ManualUpdate.InteractiveUpdate` | scripts/manual_cb_update.py:41-145 | Succeeds exactly when all of these hold: the file exists and reads, the quarter passes the check, the tonnes parse, the user confirms, and an overwrite is accepted when the quarter exists. Then the old rows of the quarter are removed and the new row is appended last; otherwise the file is unchanged. |
| `ManualUpdate.NewQuarterAppends` | scripts/manual_cb_update.py:124-132 | A new quarter extends the table by one row at the end. |
| `ManualUpdate.QuarterOnceAfterUpdate` | scripts/manual_cb_update.py:114-132 | After an update the quarter appears exactly once. |
| `ManualUpdate.UpdatedRowIsLatest` | scripts/manual_cb_update.py:124-132 | The monitor then reports the new row as latest and current, even for an older quarter. |
| `ManualUpdate.OverwriteMovesToEnd` | scripts/manual_cb_update.py:114-132 | Overwriting an earlier quarter moves it to the end. |
| `Report.Trunc` | src/report_generator.py:141 | `int()` truncates toward zero. |
| `Report.MarkerIndexIsTwiceScore` | src/report_generator.py:140-141 | The marker index is `int(2·score + 10)`. |
| `Report.Wrapped` | src/report_generator.py:145 | A negative list index counts from the end: the cell written is i, or i + 21 for negative i. |
| `Report.BarCells` | src/report_generator.py:143-147 | The bar has 21 cells. |
| `Report.CreateScoreBar` | src/report_generator.py:137-147 | As written, the bar is drawn exactly when `int((score+5)/10*20)` is a valid Python index. It is then the 21 cells with the centre mark at 10 and the marker at that index, a negative index counting from the end. |
| `Report.BarMarks` | src/report_generator.py:143-147 | Exactly one cell holds the marker. The centre mark disappears exactly when the marker covers it. |
| `Report.MarkerIndexInBar` | src/report_generator.py:140-141 | The index falls on the bar from the front exactly for −5.5 < score < 5.5. |
| `Report.ScoreBarAtExtremes` | src/report_generator.py:140-145 | +5.5 gives index 21 (IndexError); −5.5 gives −1, the bullish end. |
| `Report.ScoreBarOnReachableScores` | src/report_generator.py:140-145 | Over all scores the scorer can return, the bar fails only at +5.5 and is misplaced only at ±5.5. |
| `Report.ScoreBarForRegime` | src/report_generator.py:140-145 | The bar for the scorer's own score fails exactly when the score is the maximum. |
| `Report.ClampedIndex` | src/report_generator.py:140-145 | The corrected marker index stays on the bar and agrees with the original wherever that is on the bar. |
| `Report.CreateScoreBarClamped` | src/report_generator.py:137-147 | The corrected bar never fails and puts the marker at the clamped index. |
| `Report.ClampedIndexOrdered` | src/report_generator.py:139-141 | The corrected marker moves right as the score grows. |
| `Report.ClampedIndexSides` | src/report_generator.py:139-145 | The corrected marker sits left of centre for a negative score and on the centre for [0, 0.5). It sits right of centre from 0.5, and at the ends for ±5 and beyond. |
| `Report.FmtNum` | src/report_generator.py:167-171 | "N/A" exactly for a missing, `None` or NaN metric; otherwise its value. |
| `Report.FmtPct` | src/report_generator.py:160-165 | "N/A" as `fmt_num`. Otherwise the sign is "+" exactly for a non-negative value, and the shown figure is the value times 100. |
| `Report.ZScoreLine` | src/report_generator.py:220 | As written, a shown z-score is always what `fmt_num` shows. |
| `Report.ZeroZScoreHidden` | src/report_generator.py:220 | A defined z-score of 0.0 is shown as "N/A". |
| `Report.ZScoreLineCorrected` | src/report_generator.py:220 | The corrected line shows every numeric z-score. |
| `Report.ZScoreLinesAgree` | src/report_generator.py:220 | The written and corrected lines differ exactly on a z-score of 0.0. |
| `Report.ValuationMatchesScorer` | src/report_generator.py:184-195 | The valuation text ladder and the scorer's valuation entry use the same cuts, reading for reading. |
| `Report.MomentumTextMatchesScorer` | src/report_generator.py:173-181 | The momentum lines read "bullish" exactly when the scorer gives that ladder a positive weight. |
| `Report.RiskText` | src/report_generator.py:214 | "Elevated risk" exactly when the VIX is a number above 20. |
| `Report.CbTextMatchesScorer` | src/report_generator.py:265-269 | For current data the text follows the scorer's entry, except that 0 tonnes reads "Net selling" here and "Weak CB buying" there. |
| `Report.CbSection` | src/report_generator.py:233-277 | 'missing' and 'error' get their own notices. Every other status, 'empty' included, shows the data view; its text follows the tonnes, and it is stale-flagged exactly when the data is stale. |
| `Report.EmptyTableSection` | src/report_generator.py:260-277 | An empty table shows "N/A" fields and 0 tonnes as "Net selling", while the scorer says "CB data missing". |
| `Report.UnavailableSections` | src/report_generator.py:236-258 | A missing file shows the monitor's hint; an unreadable one shows its error. |

## Findings

| source | as written | input that shows it | evidently intended | confidence | as-written member | corrected member |
|---|---|---|---|---|---|---|
| src/report_generator.py:140-145 | the marker index `int((score + 5) / 10 * 20)` is used unchecked on a 21-cell list, though the scorer's scores reach ±5.5 | score 5.5 (index 21, IndexError); score −5.5 (index −1, drawn in the bullish end cell) | the marker clamped to cells 0..20 | not executed | `Report.CreateScoreBar` (`Report.ScoreBarAtExtremes`) | `Report.CreateScoreBarClamped` (`Report.ClampedIndexSides`) |
| src/report_generator.py:220 | the z-score line is guarded by truthiness | a defined z-score of 0.0 (shown as "N/A") | the `fmt_num` rule: "N/A" only for a missing, `None` or NaN value | not executed | `Report.ZScoreLine` (`Report.ZeroZScoreHidden`) | `Report.ZScoreLineCorrected` (`Report.ZScoreLinesAgree`) |

Where the code and its own description disagree, the model follows the code:

- The scorer's docstring puts the valuation penalty at z > 1.0. The code
  penalises only z > 1.5, and z in (1.0, 1.5] gives a zero-weight "elevated"
  entry (`RegimeScorer.ValuationCuts`).
- A missing momentum key reads as 0, so the scorer records a "stable" entry
  for data it never had (`RegimeScorer.AbsentMomentumReadsStable`).

## Left out

- Network, e-mail and files are outside the model:
  - HTTP scraping of the reports page, where the link texts are a parameter;
  - SMTP notification;
  - the JSON state file (load and save);
  - CSV reads and writes, where the table as read is a `CbFile`;
  - matplotlib charts and the markdown layout.
- `datetime.now()`: the day of a check or update is a parameter, and dates are day numbers.
- Float formatting (`:.2f`, `:,.0f`, `:.1f`): a formatted field is modelled as the value it shows.
- `fmt_num`'s decimals argument and `fmt_pct`'s label argument: only the defaults are used on the modelled lines.
- IEEE floating point: arithmetic is exact.
  - pandas' infinities from division by zero are undefined cells.
  - The float rounding inside the score bar's index is not modelled.
- The rolling standard deviation's square root: `std` is abstract (see `IsStd`).
- `DerivedMetrics.ZScoreAt`: the window and minimum-periods are parameters; only 1260 and 252 are used.
- `HistoryMerge.SortByDate`: pandas' `sort_index` is not stable. The contract states only the ascending order and the permutation, not which of two same-date rows comes first.
- Forward-filling of fetched data (`ffill`) is done before this core and is taken as given; leading gaps stay undefined.
- The date-summary keys (`data_start_date`, `data_end_date`, `data_days`, `calculation_date`) and the `gld_shares` pass-through are not modelled.
- The input frame of `calculate_all_metrics` must have at least one row. On an empty frame with gold and CPI columns the source raises at `cpi.iloc[0]`, and its caller never passes one.
- The regex `\d` is ASCII digits only. Python's `\d` also matches other Unicode decimal digits.
- `ManualUpdate.Lower`: only ASCII letters are lower-cased. Python's `str.lower` covers all of Unicode.
- `float(tonnes_str)` parsing is not modelled: the parsed number, or its failure, is a parameter.
- A CSV that fails to parse inside `get_latest_data` is only an unreadable file with its message; the individual pandas errors are not modelled.
- `CbRow` tonnes: the value is always a number. A blank `cb_net_tonnes` cell, which pandas reads as NaN, is not modelled; every comparison on such a cell is false. In the scorer it would then score as "Weak CB buying", and in the report as "Net selling".
- CentralBank.CentralBankMonitor.CheckForNewReport: saving the state file is assumed to succeed. In the source, a failing `save_state` comes after the quarter is appended in memory (src/cb_monitor.py:116-117). The catch-all handler then returns `None`, so that quarter is recorded but never announced. The contract promises a returned quarter whenever one is appended.
- Report sections that only lay out text (header, methodology, data quality, `_format_large_number`) are not modelled.
- `initialize_csv` and its sample rows are not modelled.
- `show_current_data` and the command-line dispatch are not modelled.
