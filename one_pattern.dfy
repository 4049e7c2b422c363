/**
 * The "one pattern, ten thousand times" screener: a main-board stock that
 * consolidated in a narrow, quiet 15-day box under a rising MA20 and breaks
 * out of it today on a large bullish bar with surging volume.
 */
module OnePattern {
  import opened Wrappers
  import opened Numeric
  import opened Text
  import opened Series
  import opened Ranking

  const MinHistory: nat := 60
  const MinClose: real := 5.0
  const MaxClose: real := 20.0
  const CodeWidth: nat := 6
  /** 创业板, 科创板 and 北交所 prefixes. */
  const ExcludedPrefixes: seq<string> := ["30", "688", "8", "4"]
  const MaPeriod: nat := 20
  /** MA20 today is compared with MA20 this many bars earlier. */
  const SlopeLag: nat := 5
  const BoxLength: nat := 15
  /** The longest history the long volume mean reaches back over. */
  const LongLength: nat := 60
  const MaxAmplitude: real := 0.15
  const MinPct: real := 5.0
  const MaxPct: real := 10.1
  const MinVolumeRatio: real := 2.5
  const MinTurnover: real := 3.0
  const MaxTurnover: real := 10.0
  const Remark: string := "缩量横盘+大阳突破"

  /** One price file: the number in the 股票代码 column of its latest row, and its bars. */
  datatype File = File(stockCode: nat, bars: seq<Bar>)

  /** `str(code).zfill(6)` */
  function Code(stockCode: nat): string {
    ZFill(Decimal(stockCode), CodeWidth)
  }

  /** The code gates: no excluded prefix, and a Shanghai (60) or Shenzhen (00) main-board prefix. */
  predicate MainBoard(code: string) {
    !StartsWithAny(code, ExcludedPrefixes) && (StartsWith(code, "60") || StartsWith(code, "00"))
  }

  /** `df.iloc[-16:-1]`: the 15 bars before the latest one. */
  function Box(bars: seq<Bar>): (box: seq<Bar>)
    requires |bars| > BoxLength
    ensures |box| == BoxLength
  {
    bars[|bars| - 1 - BoxLength .. |bars| - 1]
  }

  /** `iloc[-61:-1]` starts here: 60 bars back from the latest, or the first bar. */
  function LongStart(n: nat): nat {
    if n > LongLength then n - 1 - LongLength else 0
  }

  /** The highest high of the box. */
  function BoxHigh(bars: seq<Bar>): real
    requires |bars| > BoxLength
  {
    Max(Highs(Box(bars)))
  }

  /** The lowest low of the box. */
  function BoxLow(bars: seq<Bar>): real
    requires |bars| > BoxLength
  {
    Min(Lows(Box(bars)))
  }

  /** `(high_15 - low_15) / low_15` */
  function Amplitude(bars: seq<Bar>): Num
    requires |bars| > BoxLength
  {
    Div(Fin(BoxHigh(bars) - BoxLow(bars)), Fin(BoxLow(bars)))
  }

  /** The mean volume of the box. */
  function VolShort(bars: seq<Bar>): real
    requires |bars| > BoxLength
  {
    Mean(Volumes(Box(bars)))
  }

  /** The mean volume of the (up to) 60 bars before the latest. */
  function VolLong(bars: seq<Bar>): real
    requires |bars| > BoxLength
  {
    Mean(Volumes(bars)[LongStart(|bars|) .. |bars| - 1])
  }

  /** One match: code, close, percent change, turnover rate, volume ratio and remark. */
  datatype Hit = Hit(code: string, price: real, pct: real, turnover: real, volRatio: Num, remark: string)

  /**
   * `filter_stock` for one file: the hard filters, a rising MA20, a box of
   * at most 15% amplitude with contracted volume, then today's breakout.
   */
  function FilterStock(file: File): (r: Option<Hit>)
    ensures |file.bars| < MinHistory ==> r.None?
    ensures |file.bars| > 0 && !(MinClose <= file.bars[|file.bars| - 1].close <= MaxClose) ==> r.None?
    ensures r.Some? ==> MainBoard(r.value.code) && r.value.code == Code(file.stockCode)
    ensures r.Some? ==> MinPct <= r.value.pct <= MaxPct && MinTurnover <= r.value.turnover <= MaxTurnover
  {
    var bars := file.bars;
    var n := |bars|;
    if n == 0 || n < MinHistory then None
    else
      var latest := bars[n - 1];
      var code := Code(file.stockCode);
      if !(MinClose <= latest.close <= MaxClose) then None
      else if StartsWithAny(code, ExcludedPrefixes) then None
      else if !(StartsWith(code, "60") || StartsWith(code, "00")) then None
      else
        var ma := RollingMean(Closes(bars), MaPeriod);
        if Le(ma[n - 1], ma[n - 1 - SlopeLag]) then None
        else
          if Gt(Amplitude(bars), Fin(MaxAmplitude)) then None
          else if VolShort(bars) > VolLong(bars) then None
          else if !(MinPct <= latest.pct <= MaxPct) then None
          else if latest.close <= BoxHigh(bars) then None
          else
            var ratio := Div(Fin(latest.volume), Fin(VolShort(bars)));
            if Lt(ratio, Fin(MinVolumeRatio)) then None
            else if !(MinTurnover <= latest.turnover <= MaxTurnover) then None
            else Some(Hit(code, latest.close, latest.pct, latest.turnover, ratio, Remark))
  }

  /** `[r for r in executor.map(filter_stock, files) if r]` */
  function Screen(files: seq<File>): seq<Hit> {
    Scan(files, FilterStock)
  }

  /** A reported match: the hit and the registered name merged onto it. */
  datatype Entry = Entry(hit: Hit, name: string)

  /**
   * What survives the left merge with the registry, the "ST" filter and
   * `dropna()`: a registered code whose name has no "ST", and a volume
   * ratio that is a number.
   */
  predicate Kept(h: Hit, names: Registry) {
    h.code in names && !Contains(names[h.code], "ST") && !h.volRatio.NaN?
  }

  /** The post-filter of `main`, in the order of the matches. */
  function PostFilter(hits: seq<Hit>, names: Registry): seq<Entry> {
    if hits == [] then []
    else
      var h := hits[|hits| - 1];
      PostFilter(hits[..|hits| - 1], names) + (if Kept(h, names) then [Entry(h, names[h.code])] else [])
  }

  /** The screener's report. */
  function Report(files: seq<File>, names: Registry): seq<Entry> {
    PostFilter(Screen(files), names)
  }

  // ---------------------------------------------------------------------------
  // Properties

  /**
   * The gates of a file of at least 60 bars, with MA20 today and five bars
   * ago written out as the means of their 20 closes.
   */
  ghost predicate Pattern(file: File)
    requires |file.bars| >= MinHistory
  {
    var bars := file.bars;
    var n := |bars|;
    var latest := bars[n - 1];
    && MinClose <= latest.close <= MaxClose
    && MainBoard(Code(file.stockCode))
    // MA20 rising over five bars
    && Mean(Closes(bars)[n - 20 .. n]) > Mean(Closes(bars)[n - 25 .. n - 5])
    // a narrow box whose volume contracted
    && !Gt(Amplitude(bars), Fin(MaxAmplitude))
    && VolShort(bars) <= VolLong(bars)
    // a big bullish bar out of the box, on surging volume and active turnover
    && MinPct <= latest.pct <= MaxPct
    && latest.close > BoxHigh(bars)
    && !Lt(Div(Fin(latest.volume), Fin(VolShort(bars))), Fin(MinVolumeRatio))
    && MinTurnover <= latest.turnover <= MaxTurnover
  }

  /** A file matches exactly when it has at least 60 bars and fits the pattern. */
  lemma FilterStockIff(file: File)
    ensures FilterStock(file).Some? <==> |file.bars| >= MinHistory && Pattern(file)
  {
    var bars := file.bars;
    var n := |bars|;
    if n >= MinHistory {
      var ma := RollingMean(Closes(bars), MaPeriod);
      assert ma[n - 1] == Fin(Mean(Closes(bars)[n - 20 .. n]));
      assert ma[n - 6] == Fin(Mean(Closes(bars)[n - 25 .. n - 5]));
    }
  }

  /** A match carries the padded code, the latest close, percent change and turnover, and the volume ratio. */
  lemma FilterStockRecord(file: File)
    ensures FilterStock(file).Some? ==>
      var h := FilterStock(file).value;
      var latest := file.bars[|file.bars| - 1];
      && h.code == Code(file.stockCode) && h.price == latest.close
      && h.pct == latest.pct && h.turnover == latest.turnover && h.remark == Remark
      && (VolShort(file.bars) != 0.0 ==> h.volRatio == Fin(latest.volume / VolShort(file.bars)))
  {
  }

  /** With a positive box low, the box is at most 15% high: its range is at most 15% of its low. */
  lemma BoxIsNarrow(file: File)
    requires |file.bars| >= MinHistory && BoxLow(file.bars) > 0.0
    ensures FilterStock(file).Some? ==>
      BoxHigh(file.bars) - BoxLow(file.bars) <= MaxAmplitude * BoxLow(file.bars)
  {
    if FilterStock(file).Some? {
      MatchGates(file);
      NarrowBox(file.bars);
    }
  }

  lemma NarrowBox(bars: seq<Bar>)
    requires |bars| > BoxLength && BoxLow(bars) > 0.0 && !Gt(Amplitude(bars), Fin(MaxAmplitude))
    ensures BoxHigh(bars) - BoxLow(bars) <= MaxAmplitude * BoxLow(bars)
  {
    NotAboveMeaning(BoxHigh(bars) - BoxLow(bars), BoxLow(bars), MaxAmplitude);
  }

  lemma SurgingVolume(bars: seq<Bar>)
    requires |bars| > BoxLength && VolShort(bars) > 0.0
    requires !Lt(Div(Fin(bars[|bars| - 1].volume), Fin(VolShort(bars))), Fin(MinVolumeRatio))
    ensures bars[|bars| - 1].volume >= MinVolumeRatio * VolShort(bars)
  {
    NotBelowMeaning(bars[|bars| - 1].volume, VolShort(bars), MinVolumeRatio);
  }

  /** The amplitude and volume-ratio gates a match has passed. */
  lemma MatchGates(file: File)
    requires FilterStock(file).Some?
    ensures |file.bars| >= MinHistory
    ensures !Gt(Amplitude(file.bars), Fin(MaxAmplitude))
    ensures !Lt(Div(Fin(file.bars[|file.bars| - 1].volume), Fin(VolShort(file.bars))), Fin(MinVolumeRatio))
  {
  }

  /** A match closes above every high of the box. */
  lemma BreakoutAboveBox(file: File)
    ensures FilterStock(file).Some? ==>
      var box := Box(file.bars);
      forall k :: 0 <= k < BoxLength ==> file.bars[|file.bars| - 1].close > box[k].high
  {
    if FilterStock(file).Some? {
      var box := Box(file.bars);
      var close := file.bars[|file.bars| - 1].close;
      assert close > BoxHigh(file.bars);
      forall k | 0 <= k < BoxLength ensures close > box[k].high {
        assert Highs(box)[k] == box[k].high;
      }
    }
  }

  /** With a positive box volume, a match trades at least 2.5 times the box's mean volume. */
  lemma VolumeSurges(file: File)
    requires |file.bars| >= MinHistory && VolShort(file.bars) > 0.0
    ensures FilterStock(file).Some? ==> file.bars[|file.bars| - 1].volume >= MinVolumeRatio * VolShort(file.bars)
  {
    if FilterStock(file).Some? {
      MatchGates(file);
      SurgingVolume(file.bars);
    }
  }

  /** For a positive divisor, `not d / m > t` means `d <= t * m`. */
  lemma NotAboveMeaning(d: real, m: real, t: real)
    requires m > 0.0
    ensures !Gt(Div(Fin(d), Fin(m)), Fin(t)) <==> d <= t * m
  {
    assert d == (d / m) * m;
  }

  /** For a positive divisor, `not d / m < t` means `d >= t * m`. */
  lemma NotBelowMeaning(d: real, m: real, t: real)
    requires m > 0.0
    ensures !Lt(Div(Fin(d), Fin(m)), Fin(t)) <==> d >= t * m
  {
    assert d == (d / m) * m;
  }

  /**
   * A matched code is the stock code padded to six digits: a numeral of the
   * same value, at least six characters long, on the main board.
   */
  lemma MatchedCode(file: File)
    ensures FilterStock(file).Some? ==>
      var code := FilterStock(file).value.code;
      && IsDigits(code) && ValueOf(code) == file.stockCode && |code| >= CodeWidth
      && (StartsWith(code, "60") || StartsWith(code, "00"))
      && !StartsWith(code, "30") && !StartsWith(code, "688") && !StartsWith(code, "8") && !StartsWith(code, "4")
  {
    var s := Decimal(file.stockCode);
    ZFillNumeral(s, CodeWidth);
    DecimalRoundTrip(file.stockCode);
    if FilterStock(file).Some? {
      var code := Code(file.stockCode);
      assert StartsWith(code, ExcludedPrefixes[0]) ==> StartsWithAny(code, ExcludedPrefixes);
      assert StartsWith(code, ExcludedPrefixes[1]) ==> StartsWithAny(code, ExcludedPrefixes);
      assert StartsWith(code, ExcludedPrefixes[2]) ==> StartsWithAny(code, ExcludedPrefixes);
      assert StartsWith(code, ExcludedPrefixes[3]) ==> StartsWithAny(code, ExcludedPrefixes);
    }
  }

  function Pow10(k: nat): nat {
    if k == 0 then 1 else 10 * Pow10(k - 1)
  }

  /** A number below 10^k has at most k digits. */
  lemma {:induction false} DecimalFits(n: nat, k: nat)
    requires k >= 1 && n < Pow10(k)
    ensures |Decimal(n)| <= k
    decreases k
  {
    if n >= 10 {
      assert n / 10 < Pow10(k - 1);
      DecimalFits(n / 10, k - 1);
    }
  }

  /** A code below 10000 is padded with at least two zeros, so it reads as Shenzhen "00". */
  lemma SmallCodeIsShenzhen(stockCode: nat)
    requires stockCode < 10000
    ensures StartsWith(Code(stockCode), "00")
  {
    var s := Decimal(stockCode);
    assert Pow10(4) == 10000;
    DecimalFits(stockCode, 4);
    var z := Zeros(CodeWidth - |s|);
    assert Code(stockCode) == z + s;
    assert (z + s)[..2] == z[..2];
  }

  /** The post-filter keeps at most the matches it is given. */
  lemma {:induction false} PostFilterMembers(hits: seq<Hit>, names: Registry)
    ensures |PostFilter(hits, names)| <= |hits|
    ensures forall e :: e in PostFilter(hits, names) <==>
      e.hit in hits && Kept(e.hit, names) && e.name == names[e.hit.code]
  {
    if hits != [] {
      PostFilterMembers(hits[..|hits| - 1], names);
      assert hits == hits[..|hits| - 1] + [hits[|hits| - 1]];
    }
  }

  /** The post-filter keeps the order of the matches: it distributes over concatenation. */
  lemma {:induction false} PostFilterAppend(a: seq<Hit>, b: seq<Hit>, names: Registry)
    ensures PostFilter(a + b, names) == PostFilter(a, names) + PostFilter(b, names)
    decreases |b|
  {
    if b == [] {
      assert a + b == a;
    } else {
      var b' := b[..|b| - 1];
      assert (a + b)[..|a + b| - 1] == a + b';
      PostFilterAppend(a, b', names);
    }
  }

  /**
   * Every reported entry is a match of some file, with a registered name
   * free of "ST"; and every match of a registered, non-"ST" code with a
   * numeric volume ratio is reported.
   */
  lemma ReportMembers(files: seq<File>, names: Registry)
    ensures forall e :: e in Report(files, names) <==>
      (exists i :: 0 <= i < |files| && FilterStock(files[i]) == Some(e.hit))
      && Kept(e.hit, names) && e.name == names[e.hit.code]
  {
    ScanMembers(files, FilterStock);
    PostFilterMembers(Screen(files), names);
  }
}
