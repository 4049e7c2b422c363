/**
 * The golden-retracement premium screener: a rising MA21, a shaved bearish
 * bar on dry volume that held MA21 yesterday (T-1), and a bullish bar today
 * (T0) that takes back most of yesterday's body; matches are scored 60, 80
 * or 100, sorted on the score text, and the first five are kept.
 */
module GoldenPremium {
  import opened Wrappers
  import opened Numeric
  import opened Text
  import opened Series
  import opened Ranking
  import opened Scores

  const MinHistory: nat := 40
  const MinClose: real := 5.0
  const MaxClose: real := 20.0
  /** 创业板 (30), 科创板 (688) and 北交所 (8, 9) codes are not screened. */
  const ExcludedPrefixes: seq<string> := ["30", "688", "8", "9"]
  const MaPeriod: nat := 21
  const SlopeLag: nat := 3
  const VolumePeriod: nat := 5
  /** The lower shadow of a shaved bar is at most this share of its body. */
  const ShaveRatio: real := 0.1
  /** T-1 volume must be under this share of its 5-day volume mean. */
  const DryVolumeRatio: real := 0.9
  /** T0 must close above T-1's close plus this share of T-1's body. */
  const ReclaimRatio: real := 0.8
  /** Volume ratio T0/T-1 above which the score gains a bonus. */
  const SurgeRatio: real := 1.5
  const BaseScore: nat := 60
  const Bonus: nat := 20
  /** `head(5)` */
  const TopCount: nat := 5

  /** `df['MA21']` */
  function Ma21(bars: seq<Bar>): seq<Num> {
    RollingMean(Closes(bars), MaPeriod)
  }

  /** `df['V_MA5']` */
  function VolMa5(bars: seq<Bar>): seq<Num> {
    RollingMean(Volumes(bars), VolumePeriod)
  }

  /** Excluded board, or a registered name containing "ST" (an unknown code has the empty name). */
  predicate Excluded(code: string, names: Registry) {
    StartsWithAny(code, ExcludedPrefixes) || Contains(NameOr(names, code, ""), "ST")
  }

  /** A bearish body `open - close` and a lower shadow of at most a tenth of it; false for no body. */
  predicate Shaved(t1: Bar) {
    var body := t1.open - t1.close;
    if body > 0.0 then t1.close - t1.low <= body * ShaveRatio else false
  }

  /** 60 points, plus 20 for a volume surge, plus 20 for a close above T-1's open. */
  function Score(t0: Bar, t1: Bar): (s: nat)
    ensures s == 60 || s == 80 || s == 100
  {
    BaseScore
      + (if Gt(Div(Fin(t0.volume), Fin(t1.volume)), Fin(SurgeRatio)) then Bonus else 0)
      + (if t0.close > t1.open then Bonus else 0)
  }

  function Advice(score: nat): string {
    if score >= 100 then "一击必中/全仓博弈"
    else if score >= 80 then "积极参与"
    else "重点关注"
  }

  /** One match: code, name, T0 close, T0 percent change, volume ratio, score, advice and stop-loss. */
  datatype Pick = Pick(code: string, name: string, price: real, change: real, volumeRatio: Num,
                       score: nat, advice: string, stop: real)

  /**
   * `analyze_stock` for one symbol: the hard filters, the MA21 trend gates,
   * the T-1 and T0 candle gates, then the score, the advice and a stop-loss
   * at T-1's low.
   */
  function AnalyzeStock(code: string, bars: seq<Bar>, names: Registry): (r: Option<Pick>)
    ensures |bars| < MinHistory ==> r.None?
    ensures Excluded(code, names) ==> r.None?
    ensures |bars| > 0 && !(MinClose <= bars[|bars| - 1].close <= MaxClose) ==> r.None?
  {
    var n := |bars|;
    if n < MinHistory then None
    else if Excluded(code, names) then None
    else if !(MinClose <= bars[n - 1].close <= MaxClose) then None
    else
      var ma21 := Ma21(bars);
      var t0, t1 := bars[n - 1], bars[n - 2];
      if Le(DiffAt(ma21, SlopeLag, n - 1), Fin(0.0)) then None
      else if Lt(Fin(t1.close), ma21[n - 2]) then None
      else
        var isNegative := t1.close < t1.open;
        var body := t1.open - t1.close;
        var dryVolume := Lt(Fin(t1.volume), Scale(VolMa5(bars)[n - 2], DryVolumeRatio));
        var isPositive := t0.close > t0.open;
        var reclaim := t0.close > t1.close + body * ReclaimRatio;
        if isNegative && Shaved(t1) && dryVolume && isPositive && reclaim then
          var score := Score(t0, t1);
          Some(Pick(code, NameOr(names, code, "未知"), t0.close, t0.pct, Div(Fin(t0.volume), Fin(t1.volume)),
                    score, Advice(score), t1.low))
        else None
  }

  /** `[r for r in results if r is not None]` over every symbol. */
  function Screen(universe: seq<Symbol>, names: Registry): seq<Pick> {
    Scan(universe, (s: Symbol) => AnalyzeStock(s.code, s.bars, names))
  }

  // ---------------------------------------------------------------------------
  // Ranking

  /** `sort_values(by="信号强度", ascending=False)`: a larger score text first. */
  predicate TextFirst(a: Pick, b: Pick) {
    TextAtOrAbove(a.score, b.score)
  }

  /** `main` as written: sort on the score text, descending, and keep the first five. */
  function RankAsWritten(picks: seq<Pick>): seq<Pick> {
    Take(SortBy(picks, TextFirst), TopCount)
  }

  predicate ScoreFirst(a: Pick, b: Pick) {
    a.score >= b.score
  }

  /** The ranking intended: sort on the score as a number, descending, and keep the first five. */
  function Rank(picks: seq<Pick>): seq<Pick> {
    Take(SortBy(picks, ScoreFirst), TopCount)
  }

  /**
   * `main` as written: the first five of the matches in descending order of
   * score text, none left out ranking above one kept, and so never a 100
   * ahead of a 60 or an 80.
   */
  function Report(universe: seq<Symbol>, names: Registry): (r: seq<Pick>)
    ensures |r| == if |Screen(universe, names)| < TopCount then |Screen(universe, names)| else TopCount
    ensures multiset(r) <= multiset(Screen(universe, names))
    ensures SortedBy(TextFirst, r)
    ensures forall k, x :: k in r && x in multiset(Screen(universe, names)) - multiset(r) ==> TextFirst(k, x)
    ensures NoHundredAheadOfLower(r)
  {
    var picks := Screen(universe, names);
    TextDescendingOrders(TextFirst, (p: Pick) => p.score);
    TopOfSorted(picks, TextFirst, TopCount);
    SortBySorted(picks, TextFirst);
    TakeSorted(SortBy(picks, TextFirst), TextFirst, TopCount);
    RankAsWrittenPutsHundredLast(picks);
    RankAsWritten(picks)
  }

  /** The report with the numeric ranking: the five best-scored matches. */
  function ReportByScore(universe: seq<Symbol>, names: Registry): (r: seq<Pick>)
    ensures |r| == if |Screen(universe, names)| < TopCount then |Screen(universe, names)| else TopCount
    ensures multiset(r) <= multiset(Screen(universe, names))
    ensures forall k, x :: k in r && x in multiset(Screen(universe, names)) - multiset(r) ==> k.score >= x.score
    ensures forall i, j :: 0 <= i < j < |r| ==> r[i].score >= r[j].score
  {
    var picks := Screen(universe, names);
    RankKeepsBest(picks);
    Rank(picks)
  }

  // ---------------------------------------------------------------------------
  // Properties

  /** The gates of `analyze_stock` past the hard filters, as comparisons of reals. */
  ghost predicate TrendAndCandles(bars: seq<Bar>)
    requires |bars| >= MinHistory
  {
    var n := |bars|;
    var closes := Closes(bars);
    var t0, t1 := bars[n - 1], bars[n - 2];
    // MA21 has risen over the last three bars, and T-1 closed at or above its MA21
    && Mean(closes[n - 21 .. n]) > Mean(closes[n - 24 .. n - 3])
    && t1.close >= Mean(closes[n - 22 .. n - 1])
    // T-1: bearish, shaved, on volume under 90% of its 5-day mean
    && t1.close < t1.open
    && t1.close - t1.low <= (t1.open - t1.close) * ShaveRatio
    && t1.volume < Mean(Volumes(bars)[n - 6 .. n - 1]) * DryVolumeRatio
    // T0: bullish and back above 80% of T-1's body
    && t0.close > t0.open
    && t0.close > t1.close + (t1.open - t1.close) * ReclaimRatio
  }

  /**
   * A symbol matches exactly when it has at least 40 bars, is not excluded,
   * closes within [5, 20], and passes the trend and candle gates.
   */
  lemma AnalyzeStockIff(code: string, bars: seq<Bar>, names: Registry)
    ensures AnalyzeStock(code, bars, names).Some? <==>
      && |bars| >= MinHistory && !Excluded(code, names)
      && MinClose <= bars[|bars| - 1].close <= MaxClose
      && TrendAndCandles(bars)
  {
    var n := |bars|;
    if n >= MinHistory {
      var closes := Closes(bars);
      var ma21 := Ma21(bars);
      assert ma21[n - 1] == Fin(Mean(closes[n - 21 .. n]));
      assert ma21[n - 4] == Fin(Mean(closes[n - 24 .. n - 3]));
      assert ma21[n - 2] == Fin(Mean(closes[n - 22 .. n - 1]));
      assert VolMa5(bars)[n - 2] == Fin(Mean(Volumes(bars)[n - 6 .. n - 1]));
    }
  }

  /**
   * A match carries T0's close and change, the volume ratio T0/T-1, a
   * score of 60, 80 or 100 with its advice, and T-1's low as stop-loss.
   */
  lemma AnalyzeStockRecord(code: string, bars: seq<Bar>, names: Registry)
    ensures AnalyzeStock(code, bars, names).Some? ==>
      var p := AnalyzeStock(code, bars, names).value;
      var n := |bars|;
      && p.code == code && p.name == NameOr(names, code, "未知")
      && p.price == bars[n - 1].close && p.change == bars[n - 1].pct
      && p.stop == bars[n - 2].low
      && p.volumeRatio == Div(Fin(bars[n - 1].volume), Fin(bars[n - 2].volume))
      && p.score == 60 + (if Gt(p.volumeRatio, Fin(SurgeRatio)) then 20 else 0) + (if bars[n - 1].close > bars[n - 2].open then 20 else 0)
      && (p.score == 100 ==> p.advice == "一击必中/全仓博弈")
      && (p.score == 80 ==> p.advice == "积极参与")
      && (p.score == 60 ==> p.advice == "重点关注")
  {
  }

  /** A shaved T-1 bar is a bearish one: the test is false when the body is zero or negative. */
  lemma ShavedIsBearish(t1: Bar)
    ensures Shaved(t1) ==> t1.close < t1.open
  {
  }

  /** No pick scored 100 comes before one scored 60 or 80. */
  ghost predicate NoHundredAheadOfLower(r: seq<Pick>) {
    forall i, j :: 0 <= i < j < |r| && r[i].score == 100 ==> r[j].score != 60 && r[j].score != 80
  }

  /**
   * As written, a pick scored 100 never precedes one scored 60 or 80: the
   * text "100分" sorts below "60分" and "80分".
   */
  lemma RankAsWrittenPutsHundredLast(picks: seq<Pick>)
    ensures NoHundredAheadOfLower(SortBy(picks, TextFirst))
  {
    var r := SortBy(picks, TextFirst);
    TextDescendingOrders(TextFirst, (p: Pick) => p.score);
    SortBySorted(picks, TextFirst);
    forall i, j | 0 <= i < j < |r| && r[i].score == 100 ensures r[j].score != 60 && r[j].score != 80 {
      if r[j].score == 60 || r[j].score == 80 {
        HundredTextSortsBelow(r[j].score);
      }
    }
  }

  /**
   * The discrepancy on a concrete input: a match scored 100 followed by
   * five matches scored 80; the report as written keeps the five 80s and
   * drops the 100.
   */
  lemma RankAsWrittenDropsBest(picks: seq<Pick>)
    requires |picks| == 6 && picks[0].score == 100
    requires forall i :: 1 <= i < 6 ==> picks[i] == picks[1] && picks[i].score == 80
    ensures picks[0] !in RankAsWritten(picks)
  {
    var best, p := picks[0], picks[1];
    var r := SortBy(picks, TextFirst);
    RankAsWrittenPutsHundredLast(picks);
    assert picks == [best, p, p, p, p, p];
    assert multiset(r) == multiset([best, p, p, p, p, p]);
    HundredOutOfFirstFive(r, best, p);
  }

  /** In six picks ordered with no 100 ahead of an 80, the single 100 is the last. */
  lemma HundredOutOfFirstFive(r: seq<Pick>, best: Pick, p: Pick)
    requires |r| == 6 && best.score == 100 && p.score == 80
    requires multiset(r) == multiset([best, p, p, p, p, p])
    requires NoHundredAheadOfLower(r)
    ensures best !in Take(r, TopCount)
  {
    assert Take(r, TopCount) == r[..5];
    assert r == r[..5] + [r[5]];
    forall j | 0 <= j < 6 ensures r[j] == best || r[j] == p {
      assert r[j] in multiset(r);
    }
    assert multiset(r)[best] == 1;
  }

  lemma ScoreFirstOrders()
    ensures Total(ScoreFirst) && Transitive(ScoreFirst)
  {
  }

  /**
   * The intended ranking keeps at most five matches, all of them from the
   * input, and no match left out scores higher than one kept; so the best
   * score is always reported.
   */
  lemma RankKeepsBest(picks: seq<Pick>)
    ensures |Rank(picks)| <= TopCount && multiset(Rank(picks)) <= multiset(picks)
    ensures forall k, x :: k in Rank(picks) && x in multiset(picks) - multiset(Rank(picks)) ==> k.score >= x.score
    ensures forall i, j :: 0 <= i < j < |Rank(picks)| ==> Rank(picks)[i].score >= Rank(picks)[j].score
  {
    var r := Rank(picks);
    ScoreFirstOrders();
    TopOfSorted(picks, ScoreFirst, TopCount);
    SortBySorted(picks, ScoreFirst);
    TakeSorted(SortBy(picks, ScoreFirst), ScoreFirst, TopCount);
    forall k, x | k in r && x in multiset(picks) - multiset(r) ensures k.score >= x.score {
      assert ScoreFirst(k, x);
    }
    forall i, j | 0 <= i < j < |r| ensures r[i].score >= r[j].score {
      assert ScoreFirst(r[i], r[j]);
    }
  }
}
