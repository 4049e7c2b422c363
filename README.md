# Daily-bar stock screeners: the per-symbol rule engine

Five batch screeners run over a universe of A-share stocks after the close.
Each reads one price file per stock (daily bars: date, open, high, low,
close, volume, percent change, amount, turnover rate). It derives rolling
indicators and applies a chain of early-return gates. A stock that passes
every gate becomes a match record. The matches are then collected, ranked
or filtered, and written out. The five screeners are:

- **Low-reversal screener** (`stock_reversal_screener.py`). Main-board codes
  only ("60"/"00", no "30", no ST name). The close must lie in [5, 20] with
  MA5 > MA20 and close > MA5. Some bar among the 29 before the latest must
  have closed at or below its MA20, and the 5-day volume mean must exceed
  the 20-day one.
- **Yin-line pullback screener** (`yin_line_logic.py`). Requires MA5/10/20/60
  and a standard MACD (EMA12 − EMA26, a 9-span signal line, a doubled
  histogram). The close must lie in [5, 30] with an amount of at least 8亿,
  DIF above DEA and a histogram above −0.05. One of the last 15 bars must
  have risen more than 9%, and close and MA5 must sit above MA20. The latest
  bar must be a down bar on volume under 65% of its 5-day mean, closing
  within 1.5% of MA10, or else of MA5. Rows are ordered by their absolute
  deviation from that support average.
- **Golden-retracement premium** (`Golden_Retracement_Premium.py`). Requires a
  rising MA21 (three-bar difference > 0). Yesterday (T-1) must be a shaved
  bearish bar on dry volume that held MA21, and today (T0) a bullish bar that
  takes back 80% of yesterday's body. The score is 60/80/100, and the first
  five by score text are kept (see Findings).
- **Golden-retracement strategy** (`Golden_Retracement_Strategy.py`). T-1
  must be a shaved bearish bar closing at or above MA21 whose low lies
  strictly within 1.5% of MA21, and T0 must close higher. The score is
  0–100, and every match is reported, sorted on the score text (see
  Findings).
- **One-pattern breakout** (`one_pattern_strategy.py`). The code is padded to
  six digits, and the MA20 must be rising over five bars. The 15-bar box must
  have an amplitude of at most 15%, and its mean volume must be at most the
  60-bar mean. Today must be a 5–10.1% bar closing above the box, on at
  least 2.5 times the box volume and with turnover in [3, 10]. Matches
  without a registered name, or with an ST name, are dropped.

## Model layout

- `wrappers.dfy`: `Option`.
- `numeric.dfy`: the values in a pandas float column. `Num` is NaN, a finite
  real or ±inf. Comparisons follow IEEE (anything compared with NaN is
  false), division by zero gives ±inf or NaN, and NaN is truthy. The module
  also has rolling means, `ewm(adjust=False)`, `pct_change` and `diff`.
- `text.dfy`: `startswith`, `in`, `str(int)`, `zfill`, and the ordering of
  `str` values.
- `scores.dfy`: the score text "N分" and how it sorts.
- `ranking.dfy`: the per-symbol scan (map, then drop `None`), a stable sort
  by a key, and `head(n)`.
- `series.dfy`: bars, the name registry, sorting by date, and the indicator
  frame (rows plus a map of columns). It also has `AddMeanColumns`, the
  method that adds one rolling-mean column per period in a loop.
- One module per screener: `stock_reversal.dfy`, `yin_line.dfy`,
  `golden_premium.dfy`, `golden_strategy.dfy`, `one_pattern.dfy`.

The frame-building functions that mutate a frame column by column are
methods with loops. These are `calculate_indicators`, `get_indicators` and
the results loop of the yin-line `main`. Each method is proved equal to a
specification function, and the gates and lemmas use that function. The
gate chains themselves are pure functions with the same branch order as
the source.

Facts about the code that shape the model:
- Only the low-reversal and yin-line screeners sort their rows by date. The
  other three take the rows in file order.
- The yin-line band and gain thresholds are 1.5% and 9%.
- Both golden-retracement screeners rank on the score text, not on the
  number (see Findings).
- None of the five scripts computes an RSI.

## Model

| member | source | states |
|---|---|---|
| Numeric.Div | yin_line_logic.py:62-64 | A finite value over a non-zero finite value is the real quotient. NaN in either operand gives NaN. A finite result needs a finite numerator. |
| Numeric.NaNComparesFalse | stock_reversal_screener.py:72 | Every comparison with NaN is false, and NaN is truthy. |
| Numeric.FiniteComparisons | stock_reversal_screener.py:91 | On finite values, the IEEE comparisons are the comparisons of reals. |
| Numeric.Max | one_pattern_strategy.py:44 | `max()` bounds every element of the window and is one of them. |
| Numeric.Min | one_pattern_strategy.py:45 | `min()` is at most every element of the window and is one of them. |
| Numeric.MeanBounds | one_pattern_strategy.py:50-51 | A mean lies between any lower and upper bound of its values. |
| Numeric.RollingMeanAt | stock_reversal_screener.py:66 | `rolling(w).mean()` at row i is NaN exactly when fewer than w rows are available, and otherwise finite. |
| Numeric.RollingMeanWithin | stock_reversal_screener.py:66-68 | A defined rolling mean lies between the smallest and the largest value of its window. |
| Numeric.Alpha | yin_line_logic.py:19-20 | The smoothing factor 2/(span+1) of `ewm(span)` lies in (0, 1]. |
| Numeric.EmaWithinRange | yin_line_logic.py:19-20 | An exponential mean stays within any bounds of the values seen so far. |
| Numeric.EmaOfConstant | yin_line_logic.py:19-22 | The exponential mean of a constant series is that constant. |
| Numeric.ChangeAt | yin_line_logic.py:28 | `pct_change()*100` is NaN at the first row. After that it is (x[i] − x[i−1]) / x[i−1] · 100 when the previous value is non-zero. |
| Numeric.ChangeSign | yin_line_logic.py:28 | With a positive previous close, the change is positive exactly when the close rose, and ≤ 0 exactly when it did not. |
| Text.ContainsIff | Golden_Retracement_Premium.py:24 | `sub in s` holds exactly when `sub` occurs in `s` at some position, in both directions. |
| Text.ContainsTail | stock_reversal_screener.py:48 | A name containing "*ST" contains "ST", so the second test of the ST check adds nothing. |
| Text.Decimal | one_pattern_strategy.py:26 | `str(n)` is a non-empty string of digits with no leading zero unless n is 0. |
| Text.DecimalRoundTrip | one_pattern_strategy.py:26 | Reading the numeral `str(n)` back gives n. |
| Text.ZFill | one_pattern_strategy.py:26 | `zfill(w)` has length max(len, w). It leaves a long string unchanged and left-pads an unsigned one with zeros. |
| Text.ZFillNumeral | one_pattern_strategy.py:26 | Padding a numeral keeps it a numeral of the same value, ending in the original digits, at least w long. |
| Text.StrLeTotal | Golden_Retracement_Premium.py:98 | Python's string order is total. |
| Text.StrLeTransitive | Golden_Retracement_Premium.py:98 | Python's string order is transitive. |
| Text.StrLeAntisymmetric | Golden_Retracement_Premium.py:98 | Python's string order is antisymmetric. |
| Scores.ScoreTextRoundTrip | Golden_Retracement_Premium.py:76 | The score text "N分" is N's numeral followed by 分, and the numeral reads back as N. |
| Scores.TextDescendingOrders | Golden_Retracement_Premium.py:98 | A descending sort on the score text orders any records by a total and transitive relation. |
| Scores.HundredTextSortsBelow | Golden_Retracement_Premium.py:98 | For any score from 20 to 99, "100分" sorts strictly below that score's text. |
| Ranking.Collect | Golden_Retracement_Premium.py:95 | The non-None results are exactly the `Some` values, and there are no more of them than results. |
| Ranking.OutcomesAt | Golden_Retracement_Premium.py:92-93 | The per-symbol results are the evaluation of each symbol, in input order. |
| Ranking.ScanMembers | Golden_Retracement_Premium.py:92-95 | A record is in the collected results exactly when some symbol evaluates to it. There are never more results than symbols. |
| Ranking.ScanSnoc | yin_line_logic.py:87-113 | Scanning one more symbol appends its record if it matched, and nothing otherwise. |
| Ranking.SortBy | Golden_Retracement_Premium.py:98 | Sorting is a permutation of the input. |
| Ranking.SortBySorted | Golden_Retracement_Premium.py:98 | With a total and transitive key order, the sorted sequence is ordered by it. |
| Ranking.Take | Golden_Retracement_Premium.py:100 | `head(n)` keeps the first min(n, len) rows, unchanged. |
| Ranking.TopOfSorted | Golden_Retracement_Premium.py:98-100 | Sort-then-head keeps rows of the input, and every kept row ranks at least as high as every dropped row. |
| Series.SortByDateSorts | stock_reversal_screener.py:62 | `sort_values(by=date)` is a permutation into ascending date order. |
| Series.SortByDateKeepsDated | stock_reversal_screener.py:62 | Rows already in strictly increasing date order are unchanged by the sort. |
| Series.AddMeanColumns | stock_reversal_screener.py:65-68 | The loop over periods adds exactly the rolling-mean column of every period. |
| Series.MeanColumnsAt | stock_reversal_screener.py:65-68 | After the loop, a period's column is its rolling mean, and other columns are unchanged. |
| StockReversal.CheckStockCodeAndName | stock_reversal_screener.py:31-54 | Passes exactly the "60"/"00" codes whose registered name has no "ST". Every "30" code fails. A code without a registered name is not excluded on name grounds. |
| StockReversal.CalculateIndicators | stock_reversal_screener.py:56-75 | The method sorts by date, adds MA5/MA20 and Vol_MA5/Vol_MA20 in loops, then adds the low-reversal column. The result is the indicator frame. |
| StockReversal.IndicatorColumns | stock_reversal_screener.py:62-74 | The indicator frame holds the date-sorted rows. Each column is the rolling statistic of those rows. |
| StockReversal.LowReversalMeaning | stock_reversal_screener.py:71-74 | From row 29 on, the check is 1.0 exactly when one of the 29 previous rows closed at or below a defined MA20, and 0.0 otherwise. |
| StockReversal.ApplyScreenerLogic | stock_reversal_screener.py:77-108 | None below 20 rows. A match has a close in [5, 20], MA5 > MA20, close > MA5, Vol_MA5 > Vol_MA20 and a low-reversal cell that is not 0. It carries exactly code, close, MA5 and MA20. |
| StockReversal.ApplyScreenerLogicOnCells | stock_reversal_screener.py:86-100 | With finite averages, the gates are comparisons of reals, both directions. |
| StockReversal.ApplyScreenerLogicIff | stock_reversal_screener.py:77-100 | On an indicator frame, the logic matches exactly when the gates hold with each average written as the mean of its window. Below 30 rows the NaN check never rejects. |
| StockReversal.ProcessSingleFileIff | stock_reversal_screener.py:110-139 | A file matches exactly when its code passes, it has at least 20 rows and the gates hold on its date-sorted rows. The record is then the latest close with the means of the last 5 and 20 closes. |
| StockReversal.ExcludedCodesNeverMatch | stock_reversal_screener.py:35-49 | A "30" code, or one whose name contains "*ST", never matches, whatever the prices. |
| StockReversal.ScreenMembers | stock_reversal_screener.py:171-176 | The screen holds exactly the files' matches, and all of them are "60"/"00" codes. |
| YinLine.GetIndicators | yin_line_logic.py:12-29 | The method adds the columns one assignment at a time. The result is the indicator frame of the rows. |
| YinLine.IndicatorColumns | yin_line_logic.py:12-29 | The frame keeps the rows. Each column is its rolling mean, EMA or MACD series or change series. |
| YinLine.CheckLogic | yin_line_logic.py:31-70 | None below 60 rows. A match has a close in [5, 30] and an amount of at least 8亿. |
| YinLine.CheckLogicMatch | yin_line_logic.py:31-70 | Matches exactly when all gates hold, in both directions: price and amount, DIF > DEA with MACD > −0.05, a >9% change in the last 15 bars, close and MA5 above MA20, a down bar on volume under 0.65·V_MA5, and a close near MA10 or MA5. |
| YinLine.CheckLogicKey | yin_line_logic.py:61-68 | The key is MA10 exactly when the close is within 1.5% of MA10. The close is near the keyed average, and the label is "回踩"+key+"缩量阴". |
| YinLine.ProcessFile | yin_line_logic.py:89-113 | One file's row equals the row computed from its date-sorted indicator frame. |
| YinLine.ScanFiles | yin_line_logic.py:85-113 | The results loop appends, in file order, the row of each matching file. |
| YinLine.RankOrdersByDeviation | yin_line_logic.py:117-120 | The ranking is a permutation of the rows, in ascending absolute deviation. |
| YinLine.MacdGateFollowsDif | yin_line_logic.py:21-23 | Whenever DIF > DEA, the histogram exceeds −0.05, so the second MACD test never rejects on its own. |
| YinLine.FlatMacdIsZero | yin_line_logic.py:19-22 | On a constant close series, DIF and DEA are zero everywhere. |
| YinLine.FlatSeriesNeverMatches | yin_line_logic.py:42-44 | A constant close series never matches, because DIF > DEA fails. |
| YinLine.NearSupportMeaning | yin_line_logic.py:62-64 | With a positive average m, the support test is \|close − m\| ≤ 0.015·m. |
| YinLine.YinChangeMeansNoRise | yin_line_logic.py:56 | With a positive previous close, `change <= 0` holds exactly when the close did not rise. |
| YinLine.EveryMatchHasRow | yin_line_logic.py:96-102 | On an indicator frame, a row is built exactly when the logic matches: the keyed average of a match is finite and non-zero. |
| YinLine.SupportWithinBand | yin_line_logic.py:61-68 | With positive closes, the matched support average is positive and the close lies within 1.5% of it. |
| YinLine.RowDeviationWithinBand | yin_line_logic.py:100-102 | With positive closes, every row's deviation is at most 1.5 percent in absolute value. |
| GoldenPremium.Score | Golden_Retracement_Premium.py:62-64 | The score is always 60, 80 or 100. |
| GoldenPremium.AnalyzeStock | Golden_Retracement_Premium.py:16-83 | None below 40 rows, for an excluded board or ST name (an unknown code has the empty name), and for a close outside [5, 20]. |
| GoldenPremium.AnalyzeStockIff | Golden_Retracement_Premium.py:19-60 | A match exactly when the hard filters pass and the trend and candle gates hold. The gates are stated on means of the closes and volumes: MA21 rising over three bars, T-1 close ≥ MA21, T-1 bearish and shaved on volume < 0.9·V_MA5, and T0 bullish reclaiming 80% of the body. |
| GoldenPremium.AnalyzeStockRecord | Golden_Retracement_Premium.py:56-78 | The record carries T0's close and change, the ratio vol0/vol1, the score 60 + 20·[ratio > 1.5] + 20·[close0 > open1] with its advice, and T-1's low as stop-loss. |
| GoldenPremium.ShavedIsBearish | Golden_Retracement_Premium.py:45-49 | The shaved test already implies a bearish bar. It is false for a zero or negative body. |
| GoldenPremium.RankAsWrittenPutsHundredLast | Golden_Retracement_Premium.py:98 | As written, a 100 never precedes a 60 or an 80. |
| GoldenPremium.RankAsWrittenDropsBest | Golden_Retracement_Premium.py:98-100 | As written, one 100 and five 80s lose the 100 from the top five. |
| GoldenPremium.Report | Golden_Retracement_Premium.py:85-100 | What the script reports: min(5, n) of the n matches, in descending order of score text. No match left out ranks above one kept by that text, and so no 100 comes ahead of a 60 or an 80. |
| GoldenPremium.ReportByScore | Golden_Retracement_Premium.py:85-100 | The corrected report: min(5, n) of the n matches in descending score, and no match left out scores higher than one kept. |
| GoldenPremium.RankKeepsBest | Golden_Retracement_Premium.py:98-100 | The corrected ranking keeps at most five matches from the input, in descending score. No dropped match scores higher than a kept one. |
| GoldenStrategy.Score | Golden_Retracement_Strategy.py:61-64 | The score is always one of 0, 30, 40, 60, 70, 100. |
| GoldenStrategy.AnalyzeStock | Golden_Retracement_Strategy.py:16-83 | None below 30 rows, for a "30" code or ST name, and for a close outside [5, 20]. |
| GoldenStrategy.AnalyzeStockIff | Golden_Retracement_Strategy.py:19-59 | A match exactly when the hard filters pass and, with MA21 at T-1 as a mean: T-1 close ≥ MA21, T-1 bearish and shaved at 5% of the body, T-1's low strictly within 1.5% of MA21, and T0 closing higher. |
| GoldenStrategy.AnalyzeStockRecord | Golden_Retracement_Strategy.py:61-78 | The record carries T0's close, the retracement (low1 − MA21)/MA21·100, the score 40·[pct0 > 2] + 30·[vol1 < vol2] + 30·[close0 > open1] with its advice, and T-1's low as stop-loss. |
| GoldenStrategy.VolumeNeverBlocks | Golden_Retracement_Strategy.py:51-59 | Two series that differ only in volume match alike. `is_low_volume` never enters the decision. |
| GoldenStrategy.TouchMeaning | Golden_Retracement_Strategy.py:54 | With a positive MA21 m, touching means m − 0.015·m < low < m + 0.015·m. |
| GoldenStrategy.RankAsWrittenPutsHundredLate | Golden_Retracement_Strategy.py:100 | As written, a 100 never precedes a 30, 40, 60 or 70. |
| GoldenStrategy.RankAsWrittenMisorders | Golden_Retracement_Strategy.py:100 | As written, a 100 and a 30 are reported with the 30 first. |
| GoldenStrategy.RankOrdersByScore | Golden_Retracement_Strategy.py:100 | The corrected ranking is a permutation of the matches, in descending score. |
| GoldenStrategy.Report | Golden_Retracement_Strategy.py:85-100 | What the script reports: every match exactly once, in descending order of score text, so no 100 comes ahead of a 30, 40, 60 or 70. |
| GoldenStrategy.ReportByScore | Golden_Retracement_Strategy.py:85-100 | The corrected report: every match exactly once, in descending score. |
| OnePattern.Box | one_pattern_strategy.py:43 | `iloc[-16:-1]` is the 15 bars before the latest one. |
| OnePattern.FilterStock | one_pattern_strategy.py:18-78 | None below 60 rows or for a close outside [5, 20]. A match has the padded code on the main board, pct in [5, 10.1] and turnover in [3, 10]. |
| OnePattern.FilterStockIff | one_pattern_strategy.py:18-67 | A match exactly when the file has at least 60 rows and all gates hold. MA20 today and five bars ago are written as means of 20 closes. |
| OnePattern.FilterStockRecord | one_pattern_strategy.py:69-76 | The record carries the padded code, the latest close, pct and turnover, the volume ratio volume / box mean, and the remark. |
| OnePattern.BoxIsNarrow | one_pattern_strategy.py:43-47 | With a positive box low, a match's box range is at most 15% of that low. |
| OnePattern.BreakoutAboveBox | one_pattern_strategy.py:43-59 | A match closes above every high in the box. |
| OnePattern.VolumeSurges | one_pattern_strategy.py:50-63 | With positive box volume, a match trades at least 2.5 times the box's mean volume. |
| OnePattern.MatchedCode | one_pattern_strategy.py:26-32 | A matched code is a numeral of the stock code's value, at least six long. It starts "60" or "00" and never "30", "688", "8" or "4". |
| OnePattern.SmallCodeIsShenzhen | one_pattern_strategy.py:26-32 | Any stock code below 10000 is padded to a "00" code. |
| OnePattern.PostFilterMembers | one_pattern_strategy.py:88-89 | The post-filter keeps exactly the matches with a registered, ST-free name and a numeric volume ratio, each with its name, and no more rows than it was given. |
| OnePattern.PostFilterAppend | one_pattern_strategy.py:88-89 | The post-filter distributes over concatenation, so it keeps the matches' order. |
| OnePattern.ReportMembers | one_pattern_strategy.py:80-89 | An entry is reported exactly when some file produced its match and the post-filter keeps it. |

## Left out

- Reading and writing CSV files, directory listing, output paths and time
  stamps, `print`, and the parallel pools (`joblib`, `multiprocessing`,
  `ProcessPoolExecutor`). The scan is a sequential map and filter over a
  `seq` of already-loaded symbols.
- Loading the name file. The registry is a `map` parameter, so duplicate
  codes in the name file are not modelled. The final `merge` of the
  low-reversal screener only attaches names and filters nothing, so it is
  left out.
- The checks for missing columns, the renaming of columns and the catch-all
  `except` blocks. A failing file simply yields no match. Rows are finite
  reals, so NaN in the input files is not modelled. NaN and ±inf arise only
  where the code computes them (rolling windows, division by zero).
- Rounding and output formatting (`round`, "N倍", "%" strings). The yin-line
  rows are ranked on the unrounded deviation. The score text "N分" is
  modelled because it is the ranking key.
- Signed zero: a zero divisor is treated as +0.
- Ties in `sort_values` (quicksort, not stable) are broken by input order.
  All ordering lemmas hold for any tie order.
- Values computed but never used: `ma10_up` (yin line), MA5 and MA10 (one
  pattern), `t_2` (premium) and `is_low_volume` (strategy). For the last one
  `GoldenStrategy.VolumeNeverBlocks` proves it is unused.
- The file name stands for the stock code in four screeners (`Symbol.code`).
- In the one-pattern screener the stock code is a natural number, and its
  text is `str` of that number. The script takes `str` of a cell from a row
  of the frame. If every column of a file is numeric, pandas stores that row as
  floats, and the code text becomes "600000.0". That depends on the file
  contents, which are not modelled.
- YinLine.ProcessFile: always sorts the rows by date. The script sorts only
  when a 日期 column exists; a file without one is taken in file order.
- StockReversal.CheckStockCodeAndName: the registry is taken as given,
  keyed by code text. The script builds it with `astype(str)` and no
  zero-padding. If the name file stores its codes as numbers, "00" codes
  lose their leading zeros and are never found. That depends on the file
  contents, which are not modelled.

## Findings

| source | as written | input that shows it | evidently intended | confidence | as-written member | corrected member |
|---|---|---|---|---|---|---|
| Golden_Retracement_Premium.py:98-100 | sorts the matches descending on the score text "N分" and keeps the first five; as text, "80分" and "60分" rank above "100分" | six matches: one scored 100 and five scored 80 | sort on the numeric score, so the best five are kept | not executed | GoldenPremium.RankAsWrittenDropsBest | GoldenPremium.RankKeepsBest |
| Golden_Retracement_Strategy.py:100 | sorts the matches descending on the score text "N分"; "100分" sorts below every two-digit score | two matches scored 100 and 30 | list the 100 first | not executed | GoldenStrategy.RankAsWrittenMisorders | GoldenStrategy.RankOrdersByScore |

In both modules, `Report` is the script as written: it ranks with
`RankAsWritten`. `ReportByScore` is the corrected report: it ranks with the
numeric `Rank`.
