/**
 * The "yin line on support" screener: a strong stock (a day above +9% in
 * the last 15, close and MA5 above MA20, DIF above DEA) whose latest bar is
 * a down day on shrinking volume that sits within 1.5% of MA10 or MA5.
 */
module YinLine {
  import opened Wrappers
  import opened Numeric
  import opened Series
  import opened Ranking

  const MaPeriods: seq<nat> := [5, 10, 20, 60]
  const MinHistory: nat := 60
  const MinClose: real := 5.0
  const MaxClose: real := 30.0
  /** Turnover amount floor, 8亿 yuan. */
  const MinAmount: real := 800000000.0
  const MacdFloor: real := -0.05
  /** How many of the latest bars are searched for a strong day, and how strong. */
  const GeneWindow: nat := 15
  const StrongChange: real := 9.0
  const ShrinkRatio: real := 0.65
  const SupportBand: real := 0.015

  function Fins(xs: seq<real>): seq<Num> {
    seq(|xs|, i requires 0 <= i < |xs| => Fin(xs[i]))
  }

  /** `ema12 - ema26` */
  function DifSeries(closes: seq<real>): seq<real> {
    seq(|closes|, i requires 0 <= i < |closes| => EmaAt(closes, Alpha(12), i) - EmaAt(closes, Alpha(26), i))
  }

  /** `dif.ewm(span=9, adjust=False).mean()` */
  function DeaSeries(closes: seq<real>): seq<real> {
    Ema(DifSeries(closes), 9)
  }

  /** `(dif - dea) * 2` */
  function MacdSeries(closes: seq<real>): seq<real> {
    var dif := DifSeries(closes);
    var dea := DeaSeries(closes);
    seq(|closes|, i requires 0 <= i < |closes| => (dif[i] - dea[i]) * 2.0)
  }

  /** `close.pct_change() * 100` */
  function ChangeColumn(closes: seq<real>): seq<Num> {
    seq(|closes|, i requires 0 <= i < |closes| => ChangeAt(closes, i))
  }

  /** The columns `get_indicators` adds to a copy of the frame `df`. */
  function Indicators(df: seq<Bar>): Frame {
    var closes := Closes(df);
    var cols := MeanColumns(map[], false, closes, MaPeriods);
    Frame(df, cols[Dif := Fins(DifSeries(closes))][Dea := Fins(DeaSeries(closes))][Macd := Fins(MacdSeries(closes))]
                  [VolMa(5) := RollingMean(Volumes(df), 5)][Change := ChangeColumn(closes)])
  }

  /**
   * `get_indicators`: one moving-average column per period, then the MACD
   * family, the 5-day volume mean and the percent change. The input rows
   * are a value, so they are unchanged, as with the copy the source makes.
   */
  method GetIndicators(df: seq<Bar>) returns (f: Frame)
    ensures f == Indicators(df)
  {
    var closes := Closes(df);
    var cols := AddMeanColumns(map[], false, closes, MaPeriods);
    cols := cols[Dif := Fins(DifSeries(closes))];
    cols := cols[Dea := Fins(DeaSeries(closes))];
    cols := cols[Macd := Fins(MacdSeries(closes))];
    cols := cols[VolMa(5) := RollingMean(Volumes(df), 5)];
    cols := cols[Change := ChangeColumn(closes)];
    f := Frame(df, cols);
  }

  /** The columns `check_logic` reads, each aligned with the rows. */
  ghost predicate HasColumns(f: Frame) {
    var n := |f.bars|;
    && Ma(5) in f.cols && |f.cols[Ma(5)]| == n
    && Ma(10) in f.cols && |f.cols[Ma(10)]| == n
    && Ma(20) in f.cols && |f.cols[Ma(20)]| == n
    && Dif in f.cols && |f.cols[Dif]| == n
    && Dea in f.cols && |f.cols[Dea]| == n
    && Macd in f.cols && |f.cols[Macd]| == n
    && VolMa(5) in f.cols && |f.cols[VolMa(5)]| == n
    && Change in f.cols && |f.cols[Change]| == n
  }

  /** A frame whose columns are the ones `get_indicators` derives from its rows. */
  ghost predicate IsIndicatorFrame(f: Frame) {
    var closes := Closes(f.bars);
    && HasColumns(f)
    && f.cols[Ma(5)] == RollingMean(closes, 5)
    && f.cols[Ma(10)] == RollingMean(closes, 10)
    && f.cols[Ma(20)] == RollingMean(closes, 20)
    && f.cols[Dif] == Fins(DifSeries(closes))
    && f.cols[Dea] == Fins(DeaSeries(closes))
    && f.cols[Macd] == Fins(MacdSeries(closes))
    && f.cols[VolMa(5)] == RollingMean(Volumes(f.bars), 5)
    && f.cols[Change] == ChangeColumn(closes)
  }

  /** The two support averages of an indicator frame: MA5 and MA10 of the closes. */
  ghost predicate SupportColumns(f: Frame) {
    && f.cols.Keys >= {Ma(5), Ma(10)}
    && f.cols[Ma(5)] == RollingMean(Closes(f.bars), 5)
    && f.cols[Ma(10)] == RollingMean(Closes(f.bars), 10)
  }

  /** The frame `get_indicators` returns keeps the rows and holds the columns it derives from them. */
  lemma IndicatorColumns(df: seq<Bar>)
    ensures Indicators(df).bars == df && IsIndicatorFrame(Indicators(df))
  {
    var closes := Closes(df);
    forall p | p in [5, 10, 20]
      ensures var m := MeanColumns(map[], false, closes, MaPeriods); Ma(p) in m && m[Ma(p)] == RollingMean(closes, p)
    {
      var k := if p == 5 then 0 else if p == 10 then 1 else 2;
      assert MeanColumn(false, MaPeriods[k]) == Ma(p);
      MeanColumnsAt(map[], false, closes, MaPeriods, Ma(p));
    }
  }

  /** Which moving average the latest bar leans on. */
  datatype SupportKey = MA10 | MA5

  function KeyName(k: SupportKey): string {
    match k
    case MA10 => "MA10"
    case MA5 => "MA5"
  }

  /** `ma_key.lower()`: the column the key names. */
  function KeyColumn(k: SupportKey): Column {
    match k
    case MA10 => Ma(10)
    case MA5 => Ma(5)
  }

  /** The pattern label and the support key `check_logic` returns for a match. */
  datatype Signal = Signal(pattern: string, key: SupportKey)

  /** `abs(close - ma) / ma <= 0.015`, with IEEE arithmetic. */
  predicate NearSupport(close: real, ma: Num) {
    Le(Div(Abs(Sub(Fin(close), ma)), ma), Fin(SupportBand))
  }

  /** Some bar among the latest `GeneWindow` rose by more than 9% (`tail(15)`). */
  predicate HasStrongGene(change: seq<Num>) {
    var lo := if |change| < GeneWindow then 0 else |change| - GeneWindow;
    exists k :: lo <= k < |change| && Gt(change[k], Fin(StrongChange))
  }

  /**
   * `check_logic`: history, price and amount filters, the MACD gate, the
   * strength gates, then a down bar on shrinking volume near MA10 (tried
   * first) or MA5.
   */
  function CheckLogic(f: Frame): (r: Option<Signal>)
    requires HasColumns(f)
    ensures |f.bars| < MinHistory ==> r.None?
    ensures r.Some? ==> MinClose <= f.bars[|f.bars| - 1].close <= MaxClose && f.bars[|f.bars| - 1].amount >= MinAmount
  {
    var n := |f.bars|;
    if n < MinHistory then None
    else
      var curr := f.bars[n - 1];
      if !(MinClose <= curr.close <= MaxClose) || curr.amount < MinAmount then None
      else if !(Gt(f.cols[Dif][n - 1], f.cols[Dea][n - 1]) && Gt(f.cols[Macd][n - 1], Fin(MacdFloor))) then None
      else
        var strong := HasStrongGene(f.cols[Change]);
        var momentum := Gt(Fin(curr.close), f.cols[Ma(20)][n - 1]) && Gt(f.cols[Ma(5)][n - 1], f.cols[Ma(20)][n - 1]);
        if !(strong && momentum) then None
        else
          var isYin := curr.close < curr.open || Le(f.cols[Change][n - 1], Fin(0.0));
          var isShrink := Lt(Fin(curr.volume), Scale(f.cols[VolMa(5)][n - 1], ShrinkRatio));
          var key: Option<SupportKey> :=
            if NearSupport(curr.close, f.cols[Ma(10)][n - 1]) then Some(MA10)
            else if NearSupport(curr.close, f.cols[Ma(5)][n - 1]) then Some(MA5)
            else None;
          if isYin && isShrink && key.Some? then Some(Signal("回踩" + KeyName(key.value) + "缩量阴", key.value))
          else None
  }

  /**
   * `check_logic` matches exactly when, on the latest of at least 60 bars:
   * the close is within [5, 30] and the amount at least 8亿; DIF is above
   * DEA and the histogram above -0.05; some of the latest 15 bars rose by
   * more than 9%; close and MA5 are above MA20; the bar is a down bar
   * (close under open, or no positive change); its volume is under 65% of
   * the 5-day volume mean; and the close is within 1.5% of MA10 or MA5.
   */
  lemma CheckLogicMatch(f: Frame)
    requires HasColumns(f)
    ensures var n := |f.bars|;
      CheckLogic(f).Some? <==>
        n >= MinHistory && var curr := f.bars[n - 1];
        && MinClose <= curr.close <= MaxClose && curr.amount >= MinAmount
        && Gt(f.cols[Dif][n - 1], f.cols[Dea][n - 1]) && Gt(f.cols[Macd][n - 1], Fin(MacdFloor))
        && (exists k :: n - GeneWindow <= k < n && Gt(f.cols[Change][k], Fin(StrongChange)))
        && Gt(Fin(curr.close), f.cols[Ma(20)][n - 1]) && Gt(f.cols[Ma(5)][n - 1], f.cols[Ma(20)][n - 1])
        && (curr.close < curr.open || Le(f.cols[Change][n - 1], Fin(0.0)))
        && Lt(Fin(curr.volume), Scale(f.cols[VolMa(5)][n - 1], ShrinkRatio))
        && (NearSupport(curr.close, f.cols[Ma(10)][n - 1]) || NearSupport(curr.close, f.cols[Ma(5)][n - 1]))
  {
  }

  /**
   * The support average a match names is MA10 whenever the close is near
   * MA10, and MA5 otherwise; the label spells out the key.
   */
  lemma CheckLogicKey(f: Frame)
    requires HasColumns(f)
    ensures var r := CheckLogic(f); var n := |f.bars|;
      r.Some? ==>
        && (r.value.key == MA10 <==> NearSupport(f.bars[n - 1].close, f.cols[Ma(10)][n - 1]))
        && NearSupport(f.bars[n - 1].close, f.cols[KeyColumn(r.value.key)][n - 1])
        && r.value.pattern == "回踩" + KeyName(r.value.key) + "缩量阴"
  {
  }

  /** One output row of `main`. */
  datatype Row = Row(code: string, name: string, price: real, pattern: string, bias: real, macd: Num, amount: real)

  /**
   * The row `main` builds for a code whose indicator frame matched: the
   * deviation of the close from the support average in percent (`bias`),
   * the MACD value and the amount in units of 1亿.
   */
  function RowFrom(f: Frame, code: string, names: Registry): Option<Row>
    requires HasColumns(f)
  {
    match CheckLogic(f)
    case None => None
    case Some(sig) =>
      var n := |f.bars|;
      var ma := f.cols[KeyColumn(sig.key)][n - 1];
      var close := f.bars[n - 1].close;
      if ma.Fin? && ma.v != 0.0 then
        Some(Row(code, NameOr(names, code, "未知"), close, sig.pattern, (close - ma.v) / ma.v * 100.0,
                 f.cols[Macd][n - 1], f.bars[n - 1].amount / 100000000.0))
      else None
  }

  /** One file of `main`'s loop: sort by date, derive the indicators, check and build the row. */
  function RowOf(s: Symbol, names: Registry): Option<Row> {
    var bars := SortByDate(s.bars);
    IndicatorColumns(bars);
    RowFrom(Indicators(bars), s.code, names)
  }

  /** The body of `main`'s loop for one file, computing the indicators with `GetIndicators`. */
  method ProcessFile(s: Symbol, names: Registry) returns (row: Option<Row>)
    ensures row == RowOf(s, names)
  {
    var bars := SortByDate(s.bars);
    var f := GetIndicators(bars);
    IndicatorColumns(bars);
    row := RowFrom(f, s.code, names);
  }

  /**
   * `main`'s loop over the files: each file's row, if any, is appended in
   * turn, so the rows are those of the matching files in input order.
   */
  method ScanFiles(universe: seq<Symbol>, names: Registry) returns (rows: seq<Row>)
    ensures rows == Scan(universe, s => RowOf(s, names))
  {
    rows := [];
    for k := 0 to |universe|
      invariant rows == Scan(universe[..k], s => RowOf(s, names))
    {
      var row := ProcessFile(universe[k], names);
      ScanSnoc(universe, k, s => RowOf(s, names));
      if row.Some? {
        rows := rows + [row.value];
      }
    }
    assert universe[..|universe|] == universe;
  }

  function AbsReal(x: real): real {
    if x < 0.0 then -x else x
  }

  predicate CloserToSupport(a: Row, b: Row) {
    AbsReal(a.bias) <= AbsReal(b.bias)
  }

  /** `reindex(bias.abs().sort_values().index)`: the rows by ascending absolute deviation. */
  function Rank(rows: seq<Row>): seq<Row> {
    SortBy(rows, CloserToSupport)
  }

  /** The ranking is a reordering of the rows, closest to the support average first. */
  lemma RankOrdersByDeviation(rows: seq<Row>)
    ensures multiset(Rank(rows)) == multiset(rows)
    ensures forall i, j :: 0 <= i < j < |rows| ==> AbsReal(Rank(rows)[i].bias) <= AbsReal(Rank(rows)[j].bias)
  {
    assert Total(CloserToSupport) && Transitive(CloserToSupport);
    SortBySorted(rows, CloserToSupport);
  }

  // ---------------------------------------------------------------------------
  // Properties of the gates

  /**
   * `macd > -0.05` never rejects once `dif > dea`: the histogram is twice
   * their positive difference.
   */
  lemma MacdGateFollowsDif(closes: seq<real>, i: nat)
    requires i < |closes|
    ensures DifSeries(closes)[i] > DeaSeries(closes)[i] ==> MacdSeries(closes)[i] > MacdFloor
  {
  }

  /** On a flat price series DIF equals DEA, so the MACD gate rejects every flat stock. */
  lemma FlatSeriesNeverMatches(f: Frame, c: real)
    requires IsIndicatorFrame(f)
    requires forall k :: 0 <= k < |f.bars| ==> f.bars[k].close == c
    ensures CheckLogic(f).None?
  {
    if |f.bars| >= MinHistory {
      FlatMacdIsZero(Closes(f.bars), c);
      CheckLogicMatch(f);
    }
  }

  /** A flat series has DIF and DEA both zero throughout. */
  lemma FlatMacdIsZero(closes: seq<real>, c: real)
    requires forall k :: 0 <= k < |closes| ==> closes[k] == c
    ensures forall k :: 0 <= k < |closes| ==> DifSeries(closes)[k] == 0.0 && DeaSeries(closes)[k] == 0.0
  {
    var dif := DifSeries(closes);
    forall k | 0 <= k < |closes| ensures dif[k] == 0.0 {
      EmaOfConstant(closes, Alpha(12), k, c);
      EmaOfConstant(closes, Alpha(26), k, c);
    }
    forall k | 0 <= k < |closes| ensures DeaSeries(closes)[k] == 0.0 {
      EmaOfConstant(dif, Alpha(9), k, 0.0);
    }
  }

  /** With a positive support average, "near support" is a band of 1.5% around it. */
  lemma NearSupportMeaning(close: real, m: real)
    requires m > 0.0
    ensures NearSupport(close, Fin(m)) <==> AbsReal(close - m) <= SupportBand * m
  {
    var d := AbsReal(close - m);
    assert Div(Abs(Sub(Fin(close), Fin(m))), Fin(m)) == Fin(d / m);
    assert d / m <= SupportBand <==> d <= SupportBand * m;
  }

  /**
   * With a positive previous close, the "yin" test on the change column
   * holds exactly when the close did not rise.
   */
  lemma YinChangeMeansNoRise(f: Frame)
    requires IsIndicatorFrame(f)
    requires |f.bars| >= 2 && f.bars[|f.bars| - 2].close > 0.0
    ensures var n := |f.bars|;
      Le(f.cols[Change][n - 1], Fin(0.0)) <==> f.bars[n - 1].close <= f.bars[n - 2].close
  {
    ChangeSign(Closes(f.bars), |f.bars| - 1);
  }

  /**
   * The support averages of a frame `get_indicators` built are finite
   * wherever they are defined, so every match yields a row.
   */
  lemma EveryMatchHasRow(f: Frame, code: string, names: Registry)
    requires IsIndicatorFrame(f)
    ensures CheckLogic(f).Some? <==> RowFrom(f, code, names).Some?
  {
    var n := |f.bars|;
    match CheckLogic(f)
    case None =>
    case Some(sig) =>
      CheckLogicKey(f);
      assert f.cols[KeyColumn(sig.key)][n - 1] == RollingMeanAt(Closes(f.bars), if sig.key == MA10 then 10 else 5, n - 1);
  }

  /**
   * With positive closes, a matched frame's support average is positive and
   * the latest close lies within 1.5% of it.
   */
  lemma SupportWithinBand(f: Frame)
    requires HasColumns(f) && SupportColumns(f)
    requires forall k :: 0 <= k < |f.bars| ==> f.bars[k].close > 0.0
    ensures var n := |f.bars|;
      CheckLogic(f).Some? ==> var ma := f.cols[KeyColumn(CheckLogic(f).value.key)][n - 1];
        ma.Fin? && ma.v > 0.0 && AbsReal(f.bars[n - 1].close - ma.v) <= SupportBand * ma.v
  {
    var n := |f.bars|;
    if CheckLogic(f).Some? {
      CheckLogicKey(f);
      var key := CheckLogic(f).value.key;
      var w := if key == MA10 then 10 else 5;
      var closes := Closes(f.bars);
      assert f.cols[KeyColumn(key)][n - 1] == RollingMeanAt(closes, w, n - 1);
      BandAroundMean(closes, w, f.bars[n - 1].close);
    }
  }

  /** A close near a defined rolling mean of positive closes lies within 1.5% of that positive mean. */
  lemma BandAroundMean(closes: seq<real>, w: nat, close: real)
    requires 1 <= w <= |closes|
    requires forall k :: 0 <= k < |closes| ==> closes[k] > 0.0
    requires NearSupport(close, RollingMeanAt(closes, w, |closes| - 1))
    ensures var ma := RollingMeanAt(closes, w, |closes| - 1);
      ma.Fin? && ma.v > 0.0 && AbsReal(close - ma.v) <= SupportBand * ma.v
  {
    PositiveMean(closes, w, |closes| - 1);
    NearSupportMeaning(close, RollingMeanAt(closes, w, |closes| - 1).v);
  }

  /** A defined rolling mean of positive values is positive. */
  lemma PositiveMean(xs: seq<real>, w: nat, i: nat)
    requires 1 <= w <= i + 1 <= |xs|
    requires forall k :: 0 <= k < |xs| ==> xs[k] > 0.0
    ensures RollingMeanAt(xs, w, i).Fin? && RollingMeanAt(xs, w, i).v > 0.0
  {
    var window := xs[i + 1 - w .. i + 1];
    RollingMeanWithin(xs, w, i);
    var j :| 0 <= j < |window| && window[j] == Min(window);
    assert window[j] == xs[i + 1 - w + j];
  }

  /**
   * With positive closes, every row deviates from its support average by at
   * most 1.5 percent.
   */
  lemma RowDeviationWithinBand(s: Symbol, names: Registry, row: Row)
    requires forall k :: 0 <= k < |s.bars| ==> s.bars[k].close > 0.0
    requires RowOf(s, names) == Some(row)
    ensures AbsReal(row.bias) <= SupportBand * 100.0
  {
    var bars := SortByDate(s.bars);
    SortByDateSorts(s.bars);
    forall k | 0 <= k < |bars| ensures bars[k].close > 0.0 {
      assert bars[k] in multiset(s.bars);
    }
    IndicatorSupport(bars);
    RowFromDeviation(Indicators(bars), s.code, names, row);
  }

  /** The support averages of the frame `get_indicators` returns. */
  lemma IndicatorSupport(df: seq<Bar>)
    ensures Indicators(df).bars == df && HasColumns(Indicators(df)) && SupportColumns(Indicators(df))
  {
    IndicatorColumns(df);
  }

  /** `RowDeviationWithinBand` for a row built from an indicator frame. */
  lemma RowFromDeviation(f: Frame, code: string, names: Registry, row: Row)
    requires HasColumns(f) && SupportColumns(f)
    requires forall k :: 0 <= k < |f.bars| ==> f.bars[k].close > 0.0
    requires RowFrom(f, code, names) == Some(row)
    ensures AbsReal(row.bias) <= SupportBand * 100.0
  {
    SupportWithinBand(f);
    var n := |f.bars|;
    var ma := f.cols[KeyColumn(CheckLogic(f).value.key)][n - 1];
    BiasWithin(f.bars[n - 1].close, ma.v);
  }

  lemma BiasWithin(c: real, m: real)
    requires m > 0.0 && AbsReal(c - m) <= SupportBand * m
    ensures AbsReal((c - m) / m * 100.0) <= SupportBand * 100.0
  {
    var q := (c - m) / m;
    assert c - m == q * m;
    if q < 0.0 {
      assert -(c - m) == (-q) * m;
    }
  }
}
