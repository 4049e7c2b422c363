/**
 * Floating-point values as the screeners' data frames hold them, and the
 * rolling statistics the screeners derive from a column.
 *
 * A column cell is either a finite number, one of the two infinities, or
 * NaN ("not a number"), which is what a rolling window holds before it has
 * filled. Comparisons follow IEEE 754: any comparison with NaN is false.
 * Finite values are exact reals, so rounding error is not modelled.
 */
module Numeric {

  datatype Num = NaN | Fin(v: real) | PosInf | NegInf

  /** -1 for negative infinity, 1 for positive infinity, 0 otherwise. */
  function Tier(a: Num): int {
    match a
    case NegInf => -1
    case PosInf => 1
    case _ => 0
  }

  /** IEEE `a < b`. */
  predicate Lt(a: Num, b: Num) {
    !a.NaN? && !b.NaN? && (Tier(a) < Tier(b) || (a.Fin? && b.Fin? && a.v < b.v))
  }

  /** IEEE `a <= b`. */
  predicate Le(a: Num, b: Num) {
    !a.NaN? && !b.NaN? && (Tier(a) < Tier(b) || (Tier(a) == Tier(b) && (a.Fin? ==> b.Fin? && a.v <= b.v)))
  }

  /** IEEE `a > b`. */
  predicate Gt(a: Num, b: Num) {
    Lt(b, a)
  }

  /** IEEE `a >= b`. */
  predicate Ge(a: Num, b: Num) {
    Le(b, a)
  }

  /** Python truthiness of a float: everything but zero is true, NaN included. */
  predicate Truthy(a: Num) {
    a != Fin(0.0)
  }

  /** IEEE `a - b`. */
  function Sub(a: Num, b: Num): Num {
    match (a, b)
    case (NaN, _) => NaN
    case (_, NaN) => NaN
    case (Fin(x), Fin(y)) => Fin(x - y)
    case (PosInf, PosInf) => NaN
    case (NegInf, NegInf) => NaN
    case (PosInf, _) => PosInf
    case (NegInf, _) => NegInf
    case (Fin(_), PosInf) => NegInf
    case (Fin(_), NegInf) => PosInf
  }

  /** IEEE `abs(a)`. */
  function Abs(a: Num): Num {
    match a
    case NaN => NaN
    case Fin(x) => Fin(if x < 0.0 then -x else x)
    case _ => PosInf
  }

  /** IEEE `a * k` for a finite constant `k`. */
  function Scale(a: Num, k: real): Num {
    match a
    case NaN => NaN
    case Fin(x) => Fin(x * k)
    case PosInf => if k > 0.0 then PosInf else if k < 0.0 then NegInf else NaN
    case NegInf => if k > 0.0 then NegInf else if k < 0.0 then PosInf else NaN
  }

  function Sign(a: Num): int
    requires !a.NaN?
  {
    match a
    case Fin(x) => if x < 0.0 then -1 else 1
    case PosInf => 1
    case NegInf => -1
  }

  /**
   * IEEE `a / b`: a finite non-zero divisor divides; a zero divisor gives an
   * infinity of the dividend's sign, or NaN for 0/0; infinity over infinity
   * is NaN and a finite value over an infinity is 0.
   */
  function Div(a: Num, b: Num): (r: Num)
    ensures a.Fin? && b.Fin? && b.v != 0.0 ==> r == Fin(a.v / b.v)
    ensures r.Fin? ==> a.Fin?
    ensures a.NaN? || b.NaN? ==> r.NaN?
  {
    if a.NaN? || b.NaN? then NaN
    else if !a.Fin? && !b.Fin? then NaN
    else if !a.Fin? then (if Sign(a) * Sign(b) > 0 then PosInf else NegInf)
    else if !b.Fin? then Fin(0.0)
    else if b.v != 0.0 then Fin(a.v / b.v)
    else if a.v > 0.0 then PosInf
    else if a.v < 0.0 then NegInf
    else NaN
  }

  lemma NaNComparesFalse(a: Num)
    ensures !Lt(a, NaN) && !Lt(NaN, a) && !Le(a, NaN) && !Le(NaN, a)
    ensures !Gt(a, NaN) && !Ge(a, NaN) && Truthy(NaN)
  {
  }

  /** On finite values the comparisons are the real ones. */
  lemma FiniteComparisons(x: real, y: real)
    ensures Lt(Fin(x), Fin(y)) <==> x < y
    ensures Le(Fin(x), Fin(y)) <==> x <= y
  {
  }

  // ---------------------------------------------------------------------------
  // Sums, means, extremes

  function Sum(xs: seq<real>): real {
    if xs == [] then 0.0 else xs[0] + Sum(xs[1..])
  }

  function Mean(xs: seq<real>): real
    requires |xs| > 0
  {
    Sum(xs) / (|xs| as real)
  }

  /** Every value in `xs` lies in [lo, hi]. */
  ghost predicate Within(xs: seq<real>, lo: real, hi: real) {
    forall k :: 0 <= k < |xs| ==> lo <= xs[k] <= hi
  }

  lemma {:induction false} SumBounds(xs: seq<real>, lo: real, hi: real)
    requires Within(xs, lo, hi)
    ensures (|xs| as real) * lo <= Sum(xs) <= (|xs| as real) * hi
  {
    if xs != [] {
      assert Within(xs[1..], lo, hi) by {
        forall k | 0 <= k < |xs[1..]| ensures lo <= xs[1..][k] <= hi {
          assert xs[1..][k] == xs[k + 1];
        }
      }
      SumBounds(xs[1..], lo, hi);
      assert (|xs| as real) * lo == lo + (|xs[1..]| as real) * lo;
      assert (|xs| as real) * hi == hi + (|xs[1..]| as real) * hi;
    }
  }

  /** The mean of values that all lie in [lo, hi] lies in [lo, hi]. */
  lemma MeanBounds(xs: seq<real>, lo: real, hi: real)
    requires |xs| > 0 && Within(xs, lo, hi)
    ensures lo <= Mean(xs) <= hi
  {
    SumBounds(xs, lo, hi);
    var n := |xs| as real;
    assert n > 0.0;
    assert Sum(xs) / n >= lo by {
      assert Sum(xs) >= n * lo;
    }
    assert Sum(xs) / n <= hi by {
      assert Sum(xs) <= n * hi;
    }
  }

  /** Largest value of a non-empty sequence (pandas `max`). */
  function Max(xs: seq<real>): (r: real)
    requires |xs| > 0
    ensures forall k :: 0 <= k < |xs| ==> xs[k] <= r
    ensures exists k :: 0 <= k < |xs| && xs[k] == r
  {
    if |xs| == 1 then xs[0]
    else
      var m := Max(xs[1..]);
      assert forall k :: 1 <= k < |xs| ==> xs[k] == xs[1..][k - 1];
      if xs[0] >= m then xs[0] else m
  }

  /** Smallest value of a non-empty sequence (pandas `min`). */
  function Min(xs: seq<real>): (r: real)
    requires |xs| > 0
    ensures forall k :: 0 <= k < |xs| ==> r <= xs[k]
    ensures exists k :: 0 <= k < |xs| && xs[k] == r
  {
    if |xs| == 1 then xs[0]
    else
      var m := Min(xs[1..]);
      assert forall k :: 1 <= k < |xs| ==> xs[k] == xs[1..][k - 1];
      if xs[0] <= m then xs[0] else m
  }

  // ---------------------------------------------------------------------------
  // Rolling statistics (pandas `rolling`, `ewm`, `pct_change`, `diff`)

  /**
   * `xs.rolling(w).mean()` at row `i`: NaN until `w` values are available,
   * then the mean of the `w` values ending at row `i`.
   */
  function RollingMeanAt(xs: seq<real>, w: nat, i: nat): (r: Num)
    requires 1 <= w && i < |xs|
    ensures r.NaN? <==> i + 1 < w
    ensures r.NaN? || r.Fin?
  {
    if i + 1 < w then NaN else Fin(Mean(xs[i + 1 - w .. i + 1]))
  }

  /** A defined rolling mean lies between the smallest and the largest value of its window. */
  lemma RollingMeanWithin(xs: seq<real>, w: nat, i: nat)
    requires 1 <= w && w <= i + 1 < |xs| + 1
    ensures var window := xs[i + 1 - w .. i + 1];
      Min(window) <= RollingMeanAt(xs, w, i).v <= Max(window)
  {
    var window := xs[i + 1 - w .. i + 1];
    MeanBounds(window, Min(window), Max(window));
  }

  /** The whole rolling-mean column. */
  function RollingMean(xs: seq<real>, w: nat): seq<Num>
    requires 1 <= w
  {
    seq(|xs|, i requires 0 <= i < |xs| => RollingMeanAt(xs, w, i))
  }

  /** Smoothing factor of an exponential mean of span `span`. */
  function Alpha(span: nat): (a: real)
    requires span >= 1
    ensures 0.0 < a <= 1.0
  {
    2.0 / (span as real + 1.0)
  }

  /**
   * `xs.ewm(alpha=alpha, adjust=False).mean()` at row `i`: seeded with the
   * first value, then each row mixes in its own value with weight `alpha`.
   */
  function EmaAt(xs: seq<real>, alpha: real, i: nat): real
    requires i < |xs|
    decreases i
  {
    if i == 0 then xs[0] else alpha * xs[i] + (1.0 - alpha) * EmaAt(xs, alpha, i - 1)
  }

  /** The whole exponential-mean column for span `span`. */
  function Ema(xs: seq<real>, span: nat): seq<real>
    requires span >= 1
  {
    seq(|xs|, i requires 0 <= i < |xs| => EmaAt(xs, Alpha(span), i))
  }

  /** An exponential mean never leaves the range of the values it has seen. */
  lemma {:induction false} EmaWithinRange(xs: seq<real>, alpha: real, i: nat, lo: real, hi: real)
    requires 0.0 < alpha <= 1.0 && i < |xs|
    requires forall k :: 0 <= k <= i ==> lo <= xs[k] <= hi
    ensures lo <= EmaAt(xs, alpha, i) <= hi
  {
    if i > 0 {
      EmaWithinRange(xs, alpha, i - 1, lo, hi);
      var e := EmaAt(xs, alpha, i - 1);
      MixWithin(alpha, xs[i], e, lo, hi);
    }
  }

  /** A weighted mix of two values in [lo, hi] stays in [lo, hi]. */
  lemma MixWithin(alpha: real, x: real, e: real, lo: real, hi: real)
    requires 0.0 < alpha <= 1.0 && lo <= x <= hi && lo <= e <= hi
    ensures lo <= alpha * x + (1.0 - alpha) * e <= hi
  {
    var b := 1.0 - alpha;
    assert b >= 0.0;
    ProductNonNegative(alpha, x - lo);
    ProductNonNegative(b, e - lo);
    ProductNonNegative(alpha, hi - x);
    ProductNonNegative(b, hi - e);
    assert alpha * x + b * e - lo == alpha * (x - lo) + b * (e - lo);
    assert hi - (alpha * x + b * e) == alpha * (hi - x) + b * (hi - e);
  }

  lemma ProductNonNegative(p: real, q: real)
    requires p >= 0.0 && q >= 0.0
    ensures p * q >= 0.0
  {
  }

  /** The exponential mean of a constant series is that constant. */
  lemma EmaOfConstant(xs: seq<real>, alpha: real, i: nat, c: real)
    requires 0.0 < alpha <= 1.0 && i < |xs|
    requires forall k :: 0 <= k < |xs| ==> xs[k] == c
    ensures EmaAt(xs, alpha, i) == c
  {
    EmaWithinRange(xs, alpha, i, c, c);
  }

  /**
   * `xs.pct_change() * 100` at row `i`: NaN on the first row; otherwise the
   * change from the previous row in percent, with IEEE division.
   */
  function ChangeAt(xs: seq<real>, i: nat): (r: Num)
    requires i < |xs|
    ensures i == 0 ==> r.NaN?
    ensures i > 0 && xs[i - 1] != 0.0 ==> r == Fin((xs[i] - xs[i - 1]) / xs[i - 1] * 100.0)
  {
    if i == 0 then NaN else Scale(Div(Fin(xs[i] - xs[i - 1]), Fin(xs[i - 1])), 100.0)
  }

  /** With a positive previous value, the change is positive exactly when the value rose. */
  lemma ChangeSign(xs: seq<real>, i: nat)
    requires 0 < i < |xs| && xs[i - 1] > 0.0
    ensures Gt(ChangeAt(xs, i), Fin(0.0)) <==> xs[i] > xs[i - 1]
    ensures Le(ChangeAt(xs, i), Fin(0.0)) <==> xs[i] <= xs[i - 1]
  {
    var p := xs[i - 1];
    var d := xs[i] - p;
    assert ChangeAt(xs, i) == Fin(d / p * 100.0);
    if d > 0.0 {
      assert d / p > 0.0;
    } else {
      assert d / p <= 0.0;
    }
  }

  /** `col.diff(k)` at row `i`: the change over `k` rows, NaN where undefined. */
  function DiffAt(col: seq<Num>, k: nat, i: nat): Num
    requires i < |col|
  {
    if i < k then NaN else Sub(col[i], col[i - k])
  }
}
