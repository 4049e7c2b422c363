/**
 * One symbol's daily bars and the indicator frame derived from them.
 *
 * A data frame is modelled as its rows (`seq<Bar>`) plus the indicator
 * columns added to it, each aligned with the rows. Raw fields are finite
 * reals; indicator cells are `Num`, NaN before their window fills.
 */
module Series {
  import opened Numeric
  import opened Ranking

  /**
   * One trading day: 日期 (date), 开盘 (open), 最高 (high), 最低 (low),
   * 收盘 (close), 成交量 (volume), 涨跌幅 (percent change as published),
   * 成交额 (turnover amount) and 换手率 (turnover rate, percent).
   */
  datatype Bar = Bar(date: int, open: real, high: real, low: real, close: real,
                     volume: real, pct: real, amount: real, turnover: real)

  /** One symbol of the universe: its code (the file name) and its bars. */
  datatype Symbol = Symbol(code: string, bars: seq<Bar>)

  /** A name registry: stock code to display name. */
  type Registry = map<string, string>

  /** Python `names.get(code, default)`. */
  function NameOr(names: Registry, code: string, default: string): string {
    if code in names then names[code] else default
  }

  function Closes(bars: seq<Bar>): seq<real> {
    seq(|bars|, i requires 0 <= i < |bars| => bars[i].close)
  }

  function Volumes(bars: seq<Bar>): seq<real> {
    seq(|bars|, i requires 0 <= i < |bars| => bars[i].volume)
  }

  function Highs(bars: seq<Bar>): seq<real> {
    seq(|bars|, i requires 0 <= i < |bars| => bars[i].high)
  }

  function Lows(bars: seq<Bar>): seq<real> {
    seq(|bars|, i requires 0 <= i < |bars| => bars[i].low)
  }

  // ---------------------------------------------------------------------------
  // Ordering by date (`sort_values(by=日期)`)

  predicate DateLe(a: Bar, b: Bar) {
    a.date <= b.date
  }

  /** Rows in strictly increasing date order, as a loader delivers them. */
  ghost predicate StrictlyDated(bars: seq<Bar>) {
    forall i :: 0 < i < |bars| ==> bars[i - 1].date < bars[i].date
  }

  function SortByDate(bars: seq<Bar>): seq<Bar> {
    SortBy(bars, DateLe)
  }

  /** Sorting by date gives the same rows, in ascending date order. */
  lemma SortByDateSorts(bars: seq<Bar>)
    ensures multiset(SortByDate(bars)) == multiset(bars)
    ensures forall i, j :: 0 <= i < j < |bars| ==> SortByDate(bars)[i].date <= SortByDate(bars)[j].date
  {
    assert Total(DateLe) && Transitive(DateLe);
    SortBySorted(bars, DateLe);
  }

  /** Rows already in strictly increasing date order are left as they are. */
  lemma {:induction false} SortByDateKeepsDated(bars: seq<Bar>)
    requires StrictlyDated(bars)
    ensures SortByDate(bars) == bars
  {
    if bars != [] {
      assert StrictlyDated(bars[1..]) by {
        forall i | 0 < i < |bars[1..]| ensures bars[1..][i - 1].date < bars[1..][i].date {
          assert bars[1..][i - 1] == bars[i] && bars[1..][i] == bars[i + 1];
        }
      }
      SortByDateKeepsDated(bars[1..]);
      assert bars == [bars[0]] + bars[1..];
    }
  }

  // ---------------------------------------------------------------------------
  // Indicator frames

  /** Column names: f'MA{p}', f'Vol_MA{p}' (yin_line calls the latter v_ma{p}), and the rest. */
  datatype Column = Ma(period: nat) | VolMa(period: nat) | LowReversal | Dif | Dea | Macd | Change

  datatype Frame = Frame(bars: seq<Bar>, cols: map<Column, seq<Num>>)

  function MeanColumn(volume: bool, p: nat): Column {
    if volume then VolMa(p) else Ma(p)
  }

  /**
   * `for p in periods: df[name(p)] = xs.rolling(p).mean()` applied to the
   * columns `base`: one rolling-mean column per period.
   */
  function MeanColumns(base: map<Column, seq<Num>>, volume: bool, xs: seq<real>, periods: seq<nat>): map<Column, seq<Num>>
    requires forall k :: 0 <= k < |periods| ==> periods[k] >= 1
    decreases |periods|
  {
    if periods == [] then base
    else
      var p := periods[|periods| - 1];
      MeanColumns(base, volume, xs, periods[..|periods| - 1])[MeanColumn(volume, p) := RollingMean(xs, p)]
  }

  /** The loop itself: the columns are added one period at a time, in order. */
  method AddMeanColumns(base: map<Column, seq<Num>>, volume: bool, xs: seq<real>, periods: seq<nat>)
    returns (cols: map<Column, seq<Num>>)
    requires forall k :: 0 <= k < |periods| ==> periods[k] >= 1
    ensures cols == MeanColumns(base, volume, xs, periods)
  {
    cols := base;
    for k := 0 to |periods|
      invariant cols == MeanColumns(base, volume, xs, periods[..k])
    {
      assert periods[..k + 1][..k] == periods[..k];
      cols := cols[MeanColumn(volume, periods[k]) := RollingMean(xs, periods[k])];
    }
    assert periods[..|periods|] == periods;
  }

  /** Each period's column holds the rolling mean of that period; other columns are untouched. */
  lemma {:induction false} MeanColumnsAt(base: map<Column, seq<Num>>, volume: bool, xs: seq<real>, periods: seq<nat>, c: Column)
    requires forall k :: 0 <= k < |periods| ==> periods[k] >= 1
    ensures c in MeanColumns(base, volume, xs, periods) <==> c in base || exists k :: 0 <= k < |periods| && c == MeanColumn(volume, periods[k])
    ensures (exists k :: 0 <= k < |periods| && c == MeanColumn(volume, periods[k])) ==> MeanColumns(base, volume, xs, periods)[c] == RollingMean(xs, c.period)
    ensures (forall k :: 0 <= k < |periods| ==> c != MeanColumn(volume, periods[k])) && c in base ==> MeanColumns(base, volume, xs, periods)[c] == base[c]
    decreases |periods|
  {
    if periods != [] {
      var init := periods[..|periods| - 1];
      MeanColumnsAt(base, volume, xs, init, c);
      forall k | 0 <= k < |init| ensures init[k] == periods[k] { }
      if exists k :: 0 <= k < |periods| && c == MeanColumn(volume, periods[k]) {
        var k :| 0 <= k < |periods| && c == MeanColumn(volume, periods[k]);
        if c != MeanColumn(volume, periods[|periods| - 1]) {
          assert c == MeanColumn(volume, init[k]);
        }
      }
    }
  }
}
