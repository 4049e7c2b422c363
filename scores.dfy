/**
 * The score labels of the two golden-retracement screeners, f"{score}分",
 * and how `sort_values` orders them: as strings, character by character.
 */
module Scores {
  import opened Text
  import opened Ranking

  /** f"{score}分" */
  function ScoreText(score: nat): string {
    Decimal(score) + "分"
  }

  /** Distinct scores have distinct labels, and the number can be read back from a label. */
  lemma {:induction false} ScoreTextRoundTrip(score: nat)
    ensures var t := ScoreText(score);
      |t| >= 2 && t[|t| - 1] == '分' && IsDigits(t[..|t| - 1]) && ValueOf(t[..|t| - 1]) == score
  {
    var t := ScoreText(score);
    assert t[..|t| - 1] == Decimal(score);
    DecimalRoundTrip(score);
  }

  /** The numeral of a two-digit number starts with its tens digit. */
  lemma TwoDigitNumeral(s: nat)
    requires 10 <= s <= 99
    ensures Decimal(s) == [DigitChar(s / 10), DigitChar(s % 10)]
  {
  }

  /**
   * As strings, the label of 100 sorts below the label of every score from
   * 20 to 99: "100分" < "20分" because '1' < '2'. So a descending sort on
   * the label puts such scores before 100.
   */
  lemma HundredTextSortsBelow(s: nat)
    requires 20 <= s <= 99
    ensures StrLe(ScoreText(100), ScoreText(s)) && !StrLe(ScoreText(s), ScoreText(100))
  {
    TwoDigitNumeral(s);
    assert Decimal(100) == Decimal(10) + [DigitChar(0)];
    TwoDigitNumeral(10);
    assert ScoreText(100)[0] == '1';
    assert ScoreText(s)[0] == DigitChar(s / 10) && DigitChar(s / 10) >= '2';
  }

  /** `sort_values` on the score text, descending: `sa` goes first when its text sorts at or above `sb`'s. */
  predicate TextAtOrAbove(sa: nat, sb: nat) {
    StrLe(ScoreText(sb), ScoreText(sa))
  }

  /**
   * Whatever records carry the score, a descending sort on its text orders
   * them by a total and transitive relation, so the sort lemmas apply.
   */
  lemma TextDescendingOrders<T(!new)>(le: (T, T) -> bool, score: T -> nat)
    requires forall a, b :: le(a, b) == TextAtOrAbove(score(a), score(b))
    ensures Total(le) && Transitive(le)
  {
    forall a, b ensures le(a, b) || le(b, a) {
      StrLeTotal(ScoreText(score(a)), ScoreText(score(b)));
    }
    forall a, b, c | le(a, b) && le(b, c) ensures le(a, c) {
      StrLeTransitive(ScoreText(score(c)), ScoreText(score(b)), ScoreText(score(a)));
    }
  }
}
