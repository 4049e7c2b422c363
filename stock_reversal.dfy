/**
 * The low-reversal screener: a main-board code that is not flagged ST, a
 * close in [5, 20], MA5 above MA20 with the close above MA5, a close at or
 * below MA20 somewhere in the 29 bars before the latest one, and the 5-day
 * volume mean above the 20-day one.
 */
module StockReversal {
  import opened Wrappers
  import opened Numeric
  import opened Text
  import opened Series
  import opened Ranking

  const MinClosePrice: real := 5.0
  const MaxClosePrice: real := 20.0
  const MaPeriods: seq<nat> := [5, 20]
  const VolMaPeriods: seq<nat> := [5, 20]
  /** `max(MA_PERIODS)`: the shortest history the screener looks at. */
  const MinHistory: nat := 20
  /** Window of the low-reversal check: the latest bar and the 29 before it. */
  const ReversalWindow: nat := 30

  /**
   * `check_stock_code_and_name`: only Shanghai "60" and Shenzhen "00" codes
   * pass, and a code whose registered name contains "ST" is excluded; a code
   * with no registered name is not excluded on name grounds.
   */
  function CheckStockCodeAndName(code: string, names: Registry): (ok: bool)
    ensures ok <==> (StartsWith(code, "60") || StartsWith(code, "00")) && !(code in names && Contains(names[code], "ST"))
    ensures StartsWith(code, "30") ==> !ok
  {
    if StartsWith(code, "30") then false
    else if !(StartsWith(code, "60") || StartsWith(code, "00")) then false
    else
      var flagged := code in names && (Contains(names[code], "ST") || Contains(names[code], "*ST"));
      assert flagged <==> code in names && Contains(names[code], "ST") by {
        if code in names && Contains(names[code], "*ST") {
          assert "*ST" == ['*'] + "ST";
          ContainsTail(names[code], '*', "ST");
        }
      }
      !flagged
  }

  /**
   * `Low_Reversal_Check` at row `i`: NaN for the first 29 rows; afterwards
   * 1.0 when one of the 29 rows before `i` closed at or below its MA20
   * (a NaN MA20 compares false), else 0.0.
   */
  function LowReversalAt(closes: seq<real>, ma20: seq<Num>, i: nat): Num
    requires |ma20| == |closes| && i < |closes|
  {
    if i + 1 < ReversalWindow then NaN
    else if exists j :: i + 1 - ReversalWindow <= j < i && Le(Fin(closes[j]), ma20[j]) then Fin(1.0)
    else Fin(0.0)
  }

  function LowReversalColumn(closes: seq<real>, ma20: seq<Num>): seq<Num>
    requires |ma20| == |closes|
  {
    seq(|closes|, i requires 0 <= i < |closes| => LowReversalAt(closes, ma20, i))
  }

  /** The frame `calculate_indicators` returns for the rows `df`. */
  function Indicators(df: seq<Bar>): Frame {
    var bars := SortByDate(df);
    var closes := Closes(bars);
    var priced := MeanColumns(map[], false, closes, MaPeriods);
    var cols := MeanColumns(priced, true, Volumes(bars), VolMaPeriods);
    MeanColumnsAt(map[], false, closes, MaPeriods, Ma(20));
    MeanColumnsAt(priced, true, Volumes(bars), VolMaPeriods, Ma(20));
    Frame(bars, cols[LowReversal := LowReversalColumn(closes, cols[Ma(20)])])
  }

  /**
   * `calculate_indicators`: sort the rows by date, add one rolling-mean
   * column per price period and per volume period, then the low-reversal
   * column, which reads MA20.
   */
  method CalculateIndicators(df: seq<Bar>) returns (f: Frame)
    ensures f == Indicators(df)
  {
    var bars := SortByDate(df);
    var closes := Closes(bars);
    var volumes := Volumes(bars);
    var priced := AddMeanColumns(map[], false, closes, MaPeriods);
    var cols := AddMeanColumns(priced, true, volumes, VolMaPeriods);
    MeanColumnsAt(map[], false, closes, MaPeriods, Ma(20));
    MeanColumnsAt(priced, true, volumes, VolMaPeriods, Ma(20));
    cols := cols[LowReversal := LowReversalColumn(closes, cols[Ma(20)])];
    f := Frame(bars, cols);
  }

  /** A frame whose columns are the ones `calculate_indicators` computes from its rows. */
  ghost predicate StandardColumns(f: Frame) {
    var closes := Closes(f.bars);
    var volumes := Volumes(f.bars);
    && Ma(5) in f.cols && f.cols[Ma(5)] == RollingMean(closes, 5)
    && Ma(20) in f.cols && f.cols[Ma(20)] == RollingMean(closes, 20)
    && VolMa(5) in f.cols && f.cols[VolMa(5)] == RollingMean(volumes, 5)
    && VolMa(20) in f.cols && f.cols[VolMa(20)] == RollingMean(volumes, 20)
    && LowReversal in f.cols && f.cols[LowReversal] == LowReversalColumn(closes, RollingMean(closes, 20))
  }

  /** The frame `calculate_indicators` returns holds the date-sorted rows and the columns computed from them. */
  lemma IndicatorColumns(df: seq<Bar>)
    ensures Indicators(df).bars == SortByDate(df) && StandardColumns(Indicators(df)) && HasColumns(Indicators(df))
  {
    var bars := SortByDate(df);
    var priced := MeanColumns(map[], false, Closes(bars), MaPeriods);
    PriceColumns(Closes(bars));
    VolumeColumns(priced, Volumes(bars));
  }

  lemma PriceColumns(closes: seq<real>)
    ensures var m := MeanColumns(map[], false, closes, MaPeriods);
      Ma(5) in m && m[Ma(5)] == RollingMean(closes, 5) && Ma(20) in m && m[Ma(20)] == RollingMean(closes, 20)
  {
    assert MeanColumn(false, MaPeriods[0]) == Ma(5) && MeanColumn(false, MaPeriods[1]) == Ma(20);
    MeanColumnsAt(map[], false, closes, MaPeriods, Ma(5));
    MeanColumnsAt(map[], false, closes, MaPeriods, Ma(20));
  }

  lemma VolumeColumns(priced: map<Column, seq<Num>>, volumes: seq<real>)
    ensures var m := MeanColumns(priced, true, volumes, VolMaPeriods);
      && (Ma(5) in priced ==> Ma(5) in m && m[Ma(5)] == priced[Ma(5)])
      && (Ma(20) in priced ==> Ma(20) in m && m[Ma(20)] == priced[Ma(20)])
      && VolMa(5) in m && m[VolMa(5)] == RollingMean(volumes, 5)
      && VolMa(20) in m && m[VolMa(20)] == RollingMean(volumes, 20)
  {
    assert MeanColumn(true, VolMaPeriods[0]) == VolMa(5) && MeanColumn(true, VolMaPeriods[1]) == VolMa(20);
    MeanColumnsAt(priced, true, volumes, VolMaPeriods, Ma(5));
    MeanColumnsAt(priced, true, volumes, VolMaPeriods, Ma(20));
    MeanColumnsAt(priced, true, volumes, VolMaPeriods, VolMa(5));
    MeanColumnsAt(priced, true, volumes, VolMaPeriods, VolMa(20));
  }

  /** The columns `apply_screener_logic` reads, each aligned with the rows. */
  ghost predicate HasColumns(f: Frame) {
    && Ma(5) in f.cols && Ma(20) in f.cols && VolMa(5) in f.cols && VolMa(20) in f.cols && LowReversal in f.cols
    && |f.cols[Ma(5)]| == |f.cols[Ma(20)]| == |f.cols[VolMa(5)]| == |f.cols[VolMa(20)]| == |f.cols[LowReversal]| == |f.bars|
  }

  /** The record of a match. */
  datatype Match = Match(code: string, latestClose: real, ma5: Num, ma20: Num)

  /**
   * `apply_screener_logic`: the gates on the latest row, in order. A match
   * carries the latest close and the latest MA5 and MA20.
   */
  function ApplyScreenerLogic(f: Frame, code: string): (r: Option<Match>)
    requires HasColumns(f)
    ensures |f.bars| < MinHistory ==> r.None?
    ensures r.Some? ==> var n := |f.bars|;
      && MinClosePrice <= f.bars[n - 1].close <= MaxClosePrice
      && Gt(f.cols[Ma(5)][n - 1], f.cols[Ma(20)][n - 1])
      && Gt(Fin(f.bars[n - 1].close), f.cols[Ma(5)][n - 1])
      && Gt(f.cols[VolMa(5)][n - 1], f.cols[VolMa(20)][n - 1])
      && f.cols[LowReversal][n - 1] != Fin(0.0)
      && r.value == Match(code, f.bars[n - 1].close, f.cols[Ma(5)][n - 1], f.cols[Ma(20)][n - 1])
  {
    var n := |f.bars|;
    if n == 0 || n < MinHistory then None
    else
      var latest := f.bars[n - 1];
      var ma5 := f.cols[Ma(5)][n - 1];
      var ma20 := f.cols[Ma(20)][n - 1];
      if !(MinClosePrice <= latest.close <= MaxClosePrice) then None
      else if !(Gt(ma5, ma20) && Gt(Fin(latest.close), ma5)) then None
      else if !Truthy(f.cols[LowReversal][n - 1]) then None
      else if !Gt(f.cols[VolMa(5)][n - 1], f.cols[VolMa(20)][n - 1]) then None
      else Some(Match(code, latest.close, ma5, ma20))
  }

  /** `process_single_file` for one symbol, reading and column checks aside. */
  function ProcessSingleFile(s: Symbol, names: Registry): Option<Match> {
    if !CheckStockCodeAndName(s.code, names) then None
    else if |s.bars| < MinHistory then None
    else
      IndicatorColumns(s.bars);
      ApplyScreenerLogic(Indicators(s.bars), s.code)
  }

  /** `main`: every symbol evaluated, the non-matches dropped. */
  function Screen(universe: seq<Symbol>, names: Registry): seq<Match> {
    Scan(universe, s => ProcessSingleFile(s, names))
  }

  // ---------------------------------------------------------------------------
  // Properties

  /** Some row in [lo, hi) with a defined MA20 closed at or below it. */
  ghost predicate ClosedAtOrBelowMa20(closes: seq<real>, lo: int, hi: int)
    requires hi <= |closes|
  {
    exists j :: lo <= j < hi && 19 <= j && closes[j] <= Mean(closes[j - 19 .. j + 1])
  }

  /** The low-reversal cell at row `i >= 29` is 1.0 exactly when one of the 29 rows before it closed at or below a defined MA20. */
  lemma LowReversalMeaning(closes: seq<real>, i: nat)
    requires ReversalWindow - 1 <= i < |closes|
    ensures LowReversalAt(closes, RollingMean(closes, 20), i) ==
      if ClosedAtOrBelowMa20(closes, i + 1 - ReversalWindow, i) then Fin(1.0) else Fin(0.0)
  {
    var ma20 := RollingMean(closes, 20);
    var found := exists j :: i + 1 - ReversalWindow <= j < i && Le(Fin(closes[j]), ma20[j]);
    if found {
      var j :| i + 1 - ReversalWindow <= j < i && Le(Fin(closes[j]), ma20[j]);
      assert ma20[j] == RollingMeanAt(closes, 20, j);
      assert closes[j] <= Mean(closes[j - 19 .. j + 1]);
    }
    if ClosedAtOrBelowMa20(closes, i + 1 - ReversalWindow, i) {
      var j :| i + 1 - ReversalWindow <= j < i && 19 <= j && closes[j] <= Mean(closes[j - 19 .. j + 1]);
      assert ma20[j] == Fin(Mean(closes[j - 19 .. j + 1]));
    }
  }

  /**
   * The gates of the screener restated on the date-sorted rows, with each
   * moving average written as the mean of its window.
   */
  ghost predicate ReversalGates(bars: seq<Bar>)
    requires |bars| >= MinHistory
  {
    var closes := Closes(bars);
    var volumes := Volumes(bars);
    var n := |bars|;
    && MinClosePrice <= closes[n - 1] <= MaxClosePrice
    && Mean(closes[n - 5 .. n]) > Mean(closes[n - 20 .. n])
    && closes[n - 1] > Mean(closes[n - 5 .. n])
    && Mean(volumes[n - 5 .. n]) > Mean(volumes[n - 20 .. n])
    && (n >= ReversalWindow ==> ClosedAtOrBelowMa20(closes, n - ReversalWindow, n - 1))
  }

  /** The latest-row gates of `apply_screener_logic`, read as comparisons of reals. */
  lemma ApplyScreenerLogicOnCells(f: Frame, code: string, m5: real, m20: real, v5: real, v20: real)
    requires HasColumns(f) && |f.bars| >= MinHistory
    requires var n := |f.bars|;
      && f.cols[Ma(5)][n - 1] == Fin(m5) && f.cols[Ma(20)][n - 1] == Fin(m20)
      && f.cols[VolMa(5)][n - 1] == Fin(v5) && f.cols[VolMa(20)][n - 1] == Fin(v20)
    ensures var n := |f.bars|;
      var c := f.bars[n - 1].close;
      ApplyScreenerLogic(f, code).Some? <==>
        MinClosePrice <= c <= MaxClosePrice && m5 > m20 && c > m5 && Truthy(f.cols[LowReversal][n - 1]) && v5 > v20
  {
    FiniteComparisons(m20, m5);
    FiniteComparisons(m5, f.bars[|f.bars| - 1].close);
    FiniteComparisons(v20, v5);
  }

  /** On such a frame the gates pass exactly when `ReversalGates` holds of its rows. */
  lemma ApplyScreenerLogicIff(f: Frame, code: string)
    requires StandardColumns(f) && |f.bars| >= MinHistory
    ensures HasColumns(f)
    ensures ApplyScreenerLogic(f, code).Some? <==> ReversalGates(f.bars)
  {
    var closes := Closes(f.bars);
    var volumes := Volumes(f.bars);
    var n := |f.bars|;
    var m5, m20 := Mean(closes[n - 5 .. n]), Mean(closes[n - 20 .. n]);
    var v5, v20 := Mean(volumes[n - 5 .. n]), Mean(volumes[n - 20 .. n]);
    assert f.cols[Ma(5)][n - 1] == RollingMeanAt(closes, 5, n - 1) == Fin(m5);
    assert f.cols[Ma(20)][n - 1] == RollingMeanAt(closes, 20, n - 1) == Fin(m20);
    assert f.cols[VolMa(5)][n - 1] == RollingMeanAt(volumes, 5, n - 1) == Fin(v5);
    assert f.cols[VolMa(20)][n - 1] == RollingMeanAt(volumes, 20, n - 1) == Fin(v20);
    ApplyScreenerLogicOnCells(f, code, m5, m20, v5, v20);
    var low := f.cols[LowReversal][n - 1];
    if n >= ReversalWindow {
      LowReversalMeaning(closes, n - 1);
    } else {
      assert low == NaN;
    }
  }

  /**
   * A symbol matches exactly when its code passes, it has at least 20 bars
   * and the gates hold on its date-sorted rows; the match then carries the
   * latest close, MA5 and MA20. With fewer than 30 bars the low-reversal
   * cell is NaN, which Python treats as true, so that gate never rejects.
   */
  lemma ProcessSingleFileIff(s: Symbol, names: Registry)
    ensures ProcessSingleFile(s, names).Some? <==>
      CheckStockCodeAndName(s.code, names) && |s.bars| >= MinHistory && ReversalGates(SortByDate(s.bars))
    ensures ProcessSingleFile(s, names).Some? ==>
      var closes := Closes(SortByDate(s.bars));
      var n := |closes|;
      ProcessSingleFile(s, names).value == Match(s.code, closes[n - 1], Fin(Mean(closes[n - 5 .. n])), Fin(Mean(closes[n - 20 .. n])))
  {
    if CheckStockCodeAndName(s.code, names) && |s.bars| >= MinHistory {
      IndicatorColumns(s.bars);
      ApplyScreenerLogicIff(Indicators(s.bars), s.code);
    }
  }
  /** Whatever the prices, a code outside the 60/00 boards or flagged ST never matches. */
  lemma ExcludedCodesNeverMatch(s: Symbol, names: Registry)
    requires StartsWith(s.code, "30") || (s.code in names && Contains(names[s.code], "*ST"))
    ensures ProcessSingleFile(s, names).None?
  {
    if s.code in names && Contains(names[s.code], "*ST") {
      assert "*ST" == ['*'] + "ST";
      ContainsTail(names[s.code], '*', "ST");
    }
  }

  /** The screen's output is exactly the matches of the universe's symbols. */
  lemma ScreenMembers(universe: seq<Symbol>, names: Registry, m: Match)
    ensures m in Screen(universe, names) <==> exists i :: 0 <= i < |universe| && ProcessSingleFile(universe[i], names) == Some(m)
    ensures m in Screen(universe, names) ==> StartsWith(m.code, "60") || StartsWith(m.code, "00")
  {
    ScanMembers(universe, s => ProcessSingleFile(s, names));
    if m in Screen(universe, names) {
      var i :| 0 <= i < |universe| && ProcessSingleFile(universe[i], names) == Some(m);
      assert CheckStockCodeAndName(universe[i].code, names);
    }
  }
}
