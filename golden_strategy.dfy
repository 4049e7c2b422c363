/**
 * The golden-retracement strategy screener: yesterday (T-1) a shaved
 * bearish bar that held MA21 and whose low touched it, today (T0) a higher
 * close; matches are scored from 0 to 100 and all of them are reported,
 * sorted on the score text.
 */
module GoldenStrategy {
  import opened Wrappers
  import opened Numeric
  import opened Text
  import opened Series
  import opened Ranking
  import opened Scores

  const MinHistory: nat := 30
  const MinClose: real := 5.0
  const MaxClose: real := 20.0
  const MaPeriod: nat := 21
  /** The lower shadow of a shaved bar is at most this share of its body. */
  const ShaveRatio: real := 0.05
  /** T-1's low touches MA21 when it is strictly within this share of it. */
  const TouchBand: real := 0.015
  /** T0 percent change above which the score gains 40. */
  const StrongChange: real := 2.0

  /** `df['MA21']` */
  function Ma21(bars: seq<Bar>): seq<Num> {
    RollingMean(Closes(bars), MaPeriod)
  }

  /** 创业板 codes, or a registered name containing "ST" (an unknown code has the empty name). */
  predicate Excluded(code: string, names: Registry) {
    StartsWith(code, "30") || Contains(NameOr(names, code, ""), "ST")
  }

  /** A body `|open - close|` and a lower shadow of at most 5% of it; false for no body. */
  predicate Shaved(t1: Bar) {
    var body := if t1.open - t1.close < 0.0 then t1.close - t1.open else t1.open - t1.close;
    if body > 0.0 then t1.close - t1.low <= body * ShaveRatio else false
  }

  /** `abs(low - MA21) / MA21 < 0.015`, with IEEE arithmetic. */
  predicate TouchesMa21(low: real, ma: Num) {
    Lt(Div(Abs(Sub(Fin(low), ma)), ma), Fin(TouchBand))
  }

  /** 40 for a strong T0, 30 for T-1 volume under T-2's, 30 for a T0 close above T-1's open. */
  function Score(t0: Bar, t1: Bar, t2: Bar): (s: nat)
    ensures s in {0, 30, 40, 60, 70, 100}
  {
    (if t0.pct > StrongChange then 40 else 0)
      + (if t1.volume < t2.volume then 30 else 0)
      + (if t0.close > t1.open then 30 else 0)
  }

  function Advice(score: nat): string {
    if score >= 90 then "重点关注/一击必中"
    else if score >= 60 then "轻仓切入"
    else "试错观察"
  }

  /** One match: code, name, T0 close, retracement of T-1's low from MA21 in percent, score, advice and stop-loss. */
  datatype Pick = Pick(code: string, name: string, price: real, retracement: Num, score: nat, advice: string, stop: real)

  /**
   * `analyze_stock` for one symbol: the hard filters, T-1 above MA21, the
   * shaved bearish T-1 touching MA21 and a higher T0 close, then the score,
   * the advice and a stop-loss at T-1's low.
   */
  function AnalyzeStock(code: string, bars: seq<Bar>, names: Registry): (r: Option<Pick>)
    ensures |bars| < MinHistory ==> r.None?
    ensures Excluded(code, names) ==> r.None?
    ensures |bars| > 0 && !(MinClose <= bars[|bars| - 1].close <= MaxClose) ==> r.None?
  {
    var n := |bars|;
    if n < MinHistory then None
    else if Excluded(code, names) then None
    else if !(MinClose <= bars[n - 1].close <= MaxClose) then None
    else
      var ma := Ma21(bars)[n - 2];
      var t0, t1, t2 := bars[n - 1], bars[n - 2], bars[n - 3];
      if Lt(Fin(t1.close), ma) then None
      else if t1.close < t1.open && Shaved(t1) && TouchesMa21(t1.low, ma) && t0.close > t1.close then
        var score := Score(t0, t1, t2);
        Some(Pick(code, NameOr(names, code, "未知"), t0.close, Scale(Div(Sub(Fin(t1.low), ma), ma), 100.0),
                  score, Advice(score), t1.low))
      else None
  }

  /** `[r for r in results if r is not None]` over every symbol. */
  function Screen(universe: seq<Symbol>, names: Registry): seq<Pick> {
    Scan(universe, (s: Symbol) => AnalyzeStock(s.code, s.bars, names))
  }

  // ---------------------------------------------------------------------------
  // Ranking

  /** `sort_values(by="信号强度", ascending=False)`: a larger score text first. */
  predicate TextFirst(a: Pick, b: Pick) {
    TextAtOrAbove(a.score, b.score)
  }

  /** `main` as written: every match, sorted on the score text, descending. */
  function RankAsWritten(picks: seq<Pick>): seq<Pick> {
    SortBy(picks, TextFirst)
  }

  predicate ScoreFirst(a: Pick, b: Pick) {
    a.score >= b.score
  }

  /** The ranking intended: every match, sorted on the score as a number, descending. */
  function Rank(picks: seq<Pick>): seq<Pick> {
    SortBy(picks, ScoreFirst)
  }

  /**
   * `main` as written: every match, sorted on the score text, so a 100
   * comes after every match scored 30 to 70.
   */
  function Report(universe: seq<Symbol>, names: Registry): (r: seq<Pick>)
    ensures multiset(r) == multiset(Screen(universe, names))
    ensures SortedBy(TextFirst, r)
    ensures NoHundredAheadOfLower(r)
  {
    var picks := Screen(universe, names);
    TextDescendingOrders(TextFirst, (p: Pick) => p.score);
    SortBySorted(picks, TextFirst);
    RankAsWrittenPutsHundredLate(picks);
    RankAsWritten(picks)
  }

  /** The report with the numeric ranking: every match, best score first. */
  function ReportByScore(universe: seq<Symbol>, names: Registry): (r: seq<Pick>)
    ensures multiset(r) == multiset(Screen(universe, names))
    ensures forall i, j :: 0 <= i < j < |r| ==> r[i].score >= r[j].score
  {
    var picks := Screen(universe, names);
    RankOrdersByScore(picks);
    Rank(picks)
  }

  // ---------------------------------------------------------------------------
  // Properties

  /** The gates past the hard filters, with MA21 at T-1 written out as the mean `m`. */
  ghost predicate RetracementGates(bars: seq<Bar>)
    requires |bars| >= MinHistory
  {
    var n := |bars|;
    var t0, t1 := bars[n - 1], bars[n - 2];
    var m := Mean(Closes(bars)[n - 22 .. n - 1]);
    // T-1 closed at or above its MA21, bearish, with a lower shadow within 5% of the body
    && t1.close >= m
    && t1.close < t1.open
    && t1.close - t1.low <= (t1.open - t1.close) * ShaveRatio
    // T-1's low within 1.5% of MA21, and T0 closed higher
    && TouchesMa21(t1.low, Fin(m))
    && t0.close > t1.close
  }

  /**
   * A symbol matches exactly when it has at least 30 bars, is not excluded,
   * closes within [5, 20], and passes the retracement gates.
   */
  lemma AnalyzeStockIff(code: string, bars: seq<Bar>, names: Registry)
    ensures AnalyzeStock(code, bars, names).Some? <==>
      && |bars| >= MinHistory && !Excluded(code, names)
      && MinClose <= bars[|bars| - 1].close <= MaxClose
      && RetracementGates(bars)
  {
    var n := |bars|;
    if n >= MinHistory {
      assert Ma21(bars)[n - 2] == Fin(Mean(Closes(bars)[n - 22 .. n - 1]));
    }
  }

  /**
   * A match carries T0's close, the retracement of T-1's low from MA21 in
   * percent, the score with its advice, and T-1's low as stop-loss.
   */
  lemma AnalyzeStockRecord(code: string, bars: seq<Bar>, names: Registry)
    ensures AnalyzeStock(code, bars, names).Some? ==>
      var p := AnalyzeStock(code, bars, names).value;
      var n := |bars|;
      var m := Mean(Closes(bars)[n - 22 .. n - 1]);
      && p.code == code && p.name == NameOr(names, code, "未知")
      && p.price == bars[n - 1].close && p.stop == bars[n - 2].low
      && (m != 0.0 ==> p.retracement == Fin((bars[n - 2].low - m) / m * 100.0))
      && p.score == (if bars[n - 1].pct > StrongChange then 40 else 0)
                    + (if bars[n - 2].volume < bars[n - 3].volume then 30 else 0)
                    + (if bars[n - 1].close > bars[n - 2].open then 30 else 0)
      && (p.score >= 90 ==> p.advice == "重点关注/一击必中")
      && (60 <= p.score < 90 ==> p.advice == "轻仓切入")
      && (p.score < 60 ==> p.advice == "试错观察")
  {
    if AnalyzeStock(code, bars, names).Some? {
      var n := |bars|;
      assert Ma21(bars)[n - 2] == Fin(Mean(Closes(bars)[n - 22 .. n - 1]));
    }
  }

  /**
   * Volume never decides a match: two series that differ only in their
   * volumes match alike (it changes the score only).
   */
  lemma VolumeNeverBlocks(code: string, bars: seq<Bar>, other: seq<Bar>, names: Registry)
    requires |other| == |bars|
    requires forall k :: 0 <= k < |bars| ==> other[k].(volume := 0.0) == bars[k].(volume := 0.0)
    ensures AnalyzeStock(code, bars, names).Some? <==> AnalyzeStock(code, other, names).Some?
  {
    assert Closes(bars) == Closes(other) by {
      forall k | 0 <= k < |bars| ensures Closes(bars)[k] == Closes(other)[k] {
        assert other[k].(volume := 0.0).close == other[k].close;
      }
    }
    assert Ma21(bars) == Ma21(other);
    var n := |bars|;
    if n >= MinHistory {
      SameCandle(bars[n - 1], other[n - 1]);
      SameCandle(bars[n - 2], other[n - 2]);
    }
  }

  lemma SameCandle(a: Bar, b: Bar)
    requires a.(volume := 0.0) == b.(volume := 0.0)
    ensures a.open == b.open && a.low == b.low && a.close == b.close
  {
    assert a.(volume := 0.0).open == a.open && b.(volume := 0.0).open == b.open;
    assert a.(volume := 0.0).low == a.low && b.(volume := 0.0).low == b.low;
    assert a.(volume := 0.0).close == a.close && b.(volume := 0.0).close == b.close;
  }

  /** A touch of MA21 puts T-1's low strictly within 1.5% of a positive MA21, on either side. */
  lemma TouchMeaning(low: real, m: real)
    requires m > 0.0
    ensures TouchesMa21(low, Fin(m)) <==> m - TouchBand * m < low < m + TouchBand * m
  {
    var d := if low - m < 0.0 then m - low else low - m;
    assert Div(Abs(Sub(Fin(low), Fin(m))), Fin(m)) == Fin(d / m);
    QuotientBelow(d, m, TouchBand);
  }

  lemma QuotientBelow(d: real, m: real, t: real)
    requires m > 0.0
    ensures d / m < t <==> d < t * m
  {
    assert d == (d / m) * m;
  }

  /** No pick scored 100 comes before one scored 30, 40, 60 or 70. */
  ghost predicate NoHundredAheadOfLower(r: seq<Pick>) {
    forall i, j :: 0 <= i < j < |r| && r[i].score == 100 ==> !(30 <= r[j].score <= 70)
  }

  /**
   * As written, a pick scored 100 comes after every pick scored 30 to 70:
   * the text "100分" sorts below "30分", "40分", "60分" and "70分".
   */
  lemma RankAsWrittenPutsHundredLate(picks: seq<Pick>)
    ensures NoHundredAheadOfLower(RankAsWritten(picks))
  {
    var r := RankAsWritten(picks);
    TextDescendingOrders(TextFirst, (p: Pick) => p.score);
    SortBySorted(picks, TextFirst);
    forall i, j | 0 <= i < j < |r| && r[i].score == 100 ensures !(30 <= r[j].score <= 70) {
      if 30 <= r[j].score <= 70 {
        HundredTextSortsBelow(r[j].score);
      }
    }
  }

  /** The discrepancy on a concrete input: a 100 and a 30; as written the 30 comes first. */
  lemma RankAsWrittenMisorders(a: Pick, b: Pick)
    requires a.score == 100 && b.score == 30
    ensures RankAsWritten([a, b]) == [b, a]
  {
    HundredTextSortsBelow(30);
    assert !TextFirst(a, b);
  }

  lemma ScoreFirstOrders()
    ensures Total(ScoreFirst) && Transitive(ScoreFirst)
  {
  }

  /** The intended ranking reports every match, best score first. */
  lemma RankOrdersByScore(picks: seq<Pick>)
    ensures multiset(Rank(picks)) == multiset(picks)
    ensures forall i, j :: 0 <= i < j < |Rank(picks)| ==> Rank(picks)[i].score >= Rank(picks)[j].score
  {
    ScoreFirstOrders();
    SortBySorted(picks, ScoreFirst);
  }
}
