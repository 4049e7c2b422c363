/**
 * What the screeners do once every symbol has been evaluated: drop the
 * symbols that returned `None`, order the matches and keep the first few.
 */
module Ranking {
  import opened Wrappers

  /** `[r for r in results if r is not None]`: the matches, in input order. */
  function Collect<R(!new)>(results: seq<Option<R>>): (out: seq<R>)
    ensures |out| <= |results|
    ensures forall x :: x in out <==> Some(x) in results
  {
    if results == [] then []
    else
      var rest := Collect(results[1..]);
      assert forall x :: Some(x) in results <==> Some(x) == results[0] || Some(x) in results[1..];
      if results[0].Some? then [results[0].value] + rest else rest
  }

  /** Collecting a concatenation collects each part in turn, so input order is kept. */
  lemma {:induction false} CollectAppend<R(!new)>(a: seq<Option<R>>, b: seq<Option<R>>)
    ensures Collect(a + b) == Collect(a) + Collect(b)
  {
    if a == [] {
      assert a + b == b;
    } else {
      assert (a + b)[0] == a[0] && (a + b)[1..] == a[1..] + b;
      CollectAppend(a[1..], b);
    }
  }

  /** Every symbol's outcome, in input order. */
  function Outcomes<S, R>(universe: seq<S>, eval: S -> Option<R>): seq<Option<R>> {
    if universe == [] then [] else Outcomes(universe[..|universe| - 1], eval) + [eval(universe[|universe| - 1])]
  }

  /** The scan: evaluate every symbol of the universe independently and collect the matches. */
  function Scan<S, R(!new)>(universe: seq<S>, eval: S -> Option<R>): seq<R> {
    Collect(Outcomes(universe, eval))
  }

  /** The outcome at position `i` is the evaluation of the `i`-th symbol. */
  lemma {:induction false} OutcomesAt<S, R>(universe: seq<S>, eval: S -> Option<R>)
    ensures |Outcomes(universe, eval)| == |universe|
    ensures forall i :: 0 <= i < |universe| ==> Outcomes(universe, eval)[i] == eval(universe[i])
  {
    if universe != [] {
      var u := universe[..|universe| - 1];
      OutcomesAt(u, eval);
      assert forall i :: 0 <= i < |u| ==> universe[i] == u[i];
    }
  }

  /**
   * A result is in the output of the scan exactly when some symbol
   * evaluates to it, and there are never more results than symbols.
   */
  lemma ScanMembers<S, R(!new)>(universe: seq<S>, eval: S -> Option<R>)
    ensures |Scan(universe, eval)| <= |universe|
    ensures forall x :: x in Scan(universe, eval) <==> exists i :: 0 <= i < |universe| && eval(universe[i]) == Some(x)
  {
    var results := Outcomes(universe, eval);
    OutcomesAt(universe, eval);
    forall x ensures x in Scan(universe, eval) <==> exists i :: 0 <= i < |universe| && eval(universe[i]) == Some(x) {
      if x in Scan(universe, eval) {
        var i :| 0 <= i < |results| && results[i] == Some(x);
        assert eval(universe[i]) == Some(x);
      }
      if exists i :: 0 <= i < |universe| && eval(universe[i]) == Some(x) {
        var i :| 0 <= i < |universe| && eval(universe[i]) == Some(x);
        assert results[i] == Some(x);
      }
    }
  }

  /** Scanning one more symbol appends its match, if any, to the earlier ones. */
  lemma ScanSnoc<S, R(!new)>(universe: seq<S>, k: nat, eval: S -> Option<R>)
    requires k < |universe|
    ensures Scan(universe[..k + 1], eval) ==
      Scan(universe[..k], eval) + (if eval(universe[k]).Some? then [eval(universe[k]).value] else [])
  {
    assert universe[..k + 1][..k] == universe[..k];
    var r := eval(universe[k]);
    assert Outcomes(universe[..k + 1], eval) == Outcomes(universe[..k], eval) + [r];
    CollectAppend(Outcomes(universe[..k], eval), [r]);
    assert [r][1..] == [];
  }

  // ---------------------------------------------------------------------------
  // Ordering

  /** `le` relates every two values one way or the other. */
  ghost predicate Total<T(!new)>(le: (T, T) -> bool) {
    forall a, b :: le(a, b) || le(b, a)
  }

  ghost predicate Transitive<T(!new)>(le: (T, T) -> bool) {
    forall a, b, c :: le(a, b) && le(b, c) ==> le(a, c)
  }

  /** Every element may precede every later one. */
  ghost predicate SortedBy<T>(le: (T, T) -> bool, s: seq<T>) {
    forall i, j :: 0 <= i < j < |s| ==> le(s[i], s[j])
  }

  /** Put `x` before the first element it may precede. */
  function Insert<T>(x: T, s: seq<T>, le: (T, T) -> bool): (r: seq<T>)
    ensures multiset(r) == multiset(s) + multiset{x}
    ensures |r| == |s| + 1
  {
    if s == [] then [x]
    else if le(x, s[0]) then [x] + s
    else
      assert s == [s[0]] + s[1..];
      [s[0]] + Insert(x, s[1..], le)
  }

  /**
   * Sort by `le` (insertion sort; elements that tie keep their input order).
   * The result is a permutation of the input.
   */
  function SortBy<T>(s: seq<T>, le: (T, T) -> bool): (r: seq<T>)
    ensures multiset(r) == multiset(s)
    ensures |r| == |s|
  {
    if s == [] then []
    else
      assert s == [s[0]] + s[1..];
      Insert(s[0], SortBy(s[1..], le), le)
  }

  lemma {:induction false} InsertSorted<T(!new)>(x: T, s: seq<T>, le: (T, T) -> bool)
    requires Total(le) && Transitive(le) && SortedBy(le, s)
    ensures SortedBy(le, Insert(x, s, le))
  {
    if s != [] {
      var r := Insert(x, s, le);
      if le(x, s[0]) {
        forall i, j | 0 <= i < j < |r| ensures le(r[i], r[j]) {
          if i == 0 && j > 1 {
            assert le(s[0], s[j - 1]);
          }
        }
      } else {
        var t := Insert(x, s[1..], le);
        assert SortedBy(le, s[1..]);
        InsertSorted(x, s[1..], le);
        assert le(s[0], x);
        forall j | 0 <= j < |t| ensures le(s[0], t[j]) {
          assert t[j] in multiset(t);
          assert t[j] == x || t[j] in multiset(s[1..]);
          if t[j] != x {
            var k :| 0 <= k < |s[1..]| && s[1..][k] == t[j];
            assert s[k + 1] == t[j];
          }
        }
        assert r == [s[0]] + t;
      }
    }
  }

  /** With a total, transitive `le`, the result is sorted by it. */
  lemma {:induction false} SortBySorted<T(!new)>(s: seq<T>, le: (T, T) -> bool)
    requires Total(le) && Transitive(le)
    ensures SortedBy(le, SortBy(s, le))
  {
    if s != [] {
      SortBySorted(s[1..], le);
      InsertSorted(s[0], SortBy(s[1..], le), le);
    }
  }

  /** `head(n)`: the first `n` rows, or all of them when there are fewer. */
  function Take<T>(s: seq<T>, n: nat): (r: seq<T>)
    ensures |r| == if |s| < n then |s| else n
    ensures forall k :: 0 <= k < |r| ==> r[k] == s[k]
  {
    if |s| <= n then s else s[..n]
  }

  /**
   * Sorting then keeping `n` keeps elements of the input, and every element
   * kept may precede every element dropped.
   */
  lemma TopOfSorted<T(!new)>(s: seq<T>, le: (T, T) -> bool, n: nat)
    requires Total(le) && Transitive(le)
    ensures multiset(Take(SortBy(s, le), n)) <= multiset(s)
    ensures forall k, x :: k in Take(SortBy(s, le), n) && x in multiset(s) - multiset(Take(SortBy(s, le), n)) ==> le(k, x)
  {
    var r := SortBy(s, le);
    SortBySorted(s, le);
    var m := if |r| < n then |r| else n;
    var kept := Take(r, n);
    assert kept == r[..m];
    assert r == r[..m] + r[m..];
    assert multiset(r) == multiset(r[..m]) + multiset(r[m..]);
    forall k, x | k in kept && x in multiset(s) - multiset(kept) ensures le(k, x) {
      var i :| 0 <= i < m && r[i] == k;
      assert x in multiset(r[m..]);
      var j :| 0 <= j < |r[m..]| && r[m..][j] == x;
      assert r[m + j] == x;
    }
  }

  /** A prefix of an ordered sequence is ordered. */
  lemma TakeSorted<T>(s: seq<T>, le: (T, T) -> bool, n: nat)
    requires SortedBy(le, s)
    ensures SortedBy(le, Take(s, n))
  {
  }
}
