/**
 * The Python built-ins the fraud engine and the model ensemble lean on,
 * stated over mathematical values: `sum` and the mean `sum(xs) / len(xs)`,
 * `round(x, 2)`, `list(set(xs))`, `max(set(xs), key=xs.count)` and `str(n)`.
 */
module PyBuiltins {

  // ---------------------------------------------------------------------
  // Sequences as sets
  // ---------------------------------------------------------------------

  /** The elements of `s`, forgetting order and multiplicity. */
  function Elements<T>(s: seq<T>): set<T> {
    set x | x in s
  }

  /** No element occurs twice in `s`. */
  predicate NoDuplicates<T(==)>(s: seq<T>) {
    forall i, j :: 0 <= i < j < |s| ==> s[i] != s[j]
  }

  /** Appending one element adds exactly that element to the set. */
  lemma ElementsAppend<T>(s: seq<T>, x: T)
    ensures Elements(s + [x]) == Elements(s) + {x}
  {
  }

  /** A duplicate-free sequence has as many elements as its set. */
  lemma {:induction false} DistinctCardinality<T>(s: seq<T>)
    requires NoDuplicates(s)
    ensures |Elements(s)| == |s|
  {
    if s != [] {
      var init, last := s[..|s| - 1], s[|s| - 1];
      assert s == init + [last];
      assert NoDuplicates(init);
      DistinctCardinality(init);
      assert last !in Elements(init);
      ElementsAppend(init, last);
    }
  }

  /**
   * `list(set(xs))`: every element of `xs` exactly once. Python leaves the
   * order to the set's hashing; this one keeps first occurrences, and the
   * contract promises nothing about order.
   */
  method Dedup<T(==)>(xs: seq<T>) returns (r: seq<T>)
    ensures NoDuplicates(r)
    ensures Elements(r) == Elements(xs)
    ensures |r| <= |xs|
  {
    r := [];
    for i := 0 to |xs|
      invariant NoDuplicates(r)
      invariant Elements(r) == Elements(xs[..i])
      invariant |r| <= i
    {
      assert xs[..i + 1] == xs[..i] + [xs[i]];
      ElementsAppend(xs[..i], xs[i]);
      ElementsAppend(r, xs[i]);
      if xs[i] !in r {
        r := r + [xs[i]];
      }
    }
    assert xs[..|xs|] == xs;
  }

  // ---------------------------------------------------------------------
  // max(set(xs), key=xs.count)
  // ---------------------------------------------------------------------

  /** `xs.count(x)`. */
  function Count<T(==)>(xs: seq<T>, x: T): nat {
    multiset(xs)[x]
  }

  /**
   * An element of `xs` that occurs at least as often as every other one.
   * Python picks among tied elements in set-iteration order; this picks the
   * first in list order, and the contract only promises maximality.
   */
  function MostCommon<T(==)>(xs: seq<T>): (m: T)
    requires |xs| > 0
    ensures m in xs
    ensures forall x :: x in xs ==> Count(xs, x) <= Count(xs, m)
  {
    MostCommonFrom(xs, 1, xs[0])
  }

  /** The scan behind `MostCommon`: `best` is the winner among `xs[..k]`. */
  function MostCommonFrom<T(==)>(xs: seq<T>, k: nat, best: T): (m: T)
    requires k <= |xs| && best in xs
    ensures m in xs
    ensures Count(xs, best) <= Count(xs, m)
    ensures forall j :: k <= j < |xs| ==> Count(xs, xs[j]) <= Count(xs, m)
    decreases |xs| - k
  {
    if k == |xs| then best
    else
      MostCommonFrom(xs, k + 1, if Count(xs, xs[k]) > Count(xs, best) then xs[k] else best)
  }

  // ---------------------------------------------------------------------
  // sum, mean, min, max over reals
  // ---------------------------------------------------------------------

  /** `sum(xs)`, adding left to right. */
  function Sum(xs: seq<real>): real {
    if xs == [] then 0.0 else Sum(xs[..|xs| - 1]) + xs[|xs| - 1]
  }

  /** `sum(xs) / len(xs)`. */
  function Mean(xs: seq<real>): real
    requires |xs| > 0
  {
    Sum(xs) / (|xs| as real)
  }

  function Min(xs: seq<real>): (m: real)
    requires |xs| > 0
    ensures m in xs && forall i :: 0 <= i < |xs| ==> m <= xs[i]
  {
    if |xs| == 1 then xs[0]
    else
      var m := Min(xs[..|xs| - 1]);
      if xs[|xs| - 1] < m then xs[|xs| - 1] else m
  }

  function Max(xs: seq<real>): (m: real)
    requires |xs| > 0
    ensures m in xs && forall i :: 0 <= i < |xs| ==> xs[i] <= m
  {
    if |xs| == 1 then xs[0]
    else
      var m := Max(xs[..|xs| - 1]);
      if xs[|xs| - 1] > m then xs[|xs| - 1] else m
  }

  /** A sum of `n` terms each within `[lo, hi]` lies within `[n * lo, n * hi]`. */
  lemma {:induction false} SumBetween(xs: seq<real>, lo: real, hi: real)
    requires forall i :: 0 <= i < |xs| ==> lo <= xs[i] <= hi
    ensures (|xs| as real) * lo <= Sum(xs) <= (|xs| as real) * hi
  {
    if xs != [] {
      var n := |xs| as real;
      SumBetween(xs[..|xs| - 1], lo, hi);
      assert (n - 1.0) * lo + lo == n * lo;
      assert (n - 1.0) * hi + hi == n * hi;
    }
  }

  /** Dividing by a positive count keeps a bound established on the total. */
  lemma DivideBound(s: real, n: real, b: real)
    requires n > 0.0
    ensures n * b <= s ==> b <= s / n
    ensures s <= n * b ==> s / n <= b
  {
  }

  /** The mean of values within `[lo, hi]` is within `[lo, hi]`. */
  lemma MeanBetween(xs: seq<real>, lo: real, hi: real)
    requires |xs| > 0
    requires forall i :: 0 <= i < |xs| ==> lo <= xs[i] <= hi
    ensures lo <= Mean(xs) <= hi
  {
    SumBetween(xs, lo, hi);
    DivideBound(Sum(xs), |xs| as real, lo);
    DivideBound(Sum(xs), |xs| as real, hi);
  }

  /** The mean of a non-empty sequence lies between its least and greatest element. */
  lemma MeanWithinRange(xs: seq<real>)
    requires |xs| > 0
    ensures Min(xs) <= Mean(xs) <= Max(xs)
  {
    MeanBetween(xs, Min(xs), Max(xs));
  }

  /** The mean of `n` copies of `v` is `v`. */
  lemma MeanOfConstant(xs: seq<real>, v: real)
    requires |xs| > 0
    requires forall i :: 0 <= i < |xs| ==> xs[i] == v
    ensures Mean(xs) == v
  {
    MeanBetween(xs, v, v);
  }

  // ---------------------------------------------------------------------
  // round(x, 2)
  // ---------------------------------------------------------------------

  /**
   * `round(x, 2)`: the nearest multiple of 0.01, ties to the even multiple.
   * Python decides ties on the binary double; this decides them on the exact
   * real.
   */
  function Round2(x: real): (r: real)
    ensures x - 0.005 <= r <= x + 0.005
    ensures 0.0 <= x <= 1.0 ==> 0.0 <= r <= 1.0
  {
    var n := (x * 100.0).Floor;
    var frac := x * 100.0 - n as real;
    var k := if frac < 0.5 then n
             else if frac > 0.5 then n + 1
             else if n % 2 == 0 then n else n + 1;
    k as real / 100.0
  }

  // ---------------------------------------------------------------------
  // str(n)
  // ---------------------------------------------------------------------

  /** The number a string of decimal digits denotes. */
  function DigitsValue(s: string): nat
    requires forall i :: 0 <= i < |s| ==> '0' <= s[i] <= '9'
  {
    if s == [] then 0
    else DigitsValue(s[..|s| - 1]) * 10 + ((s[|s| - 1] as int) - ('0' as int))
  }

  /** The decimal digits of `n`, as `str(n)` prints a non-negative int. */
  function NatToString(n: nat): (s: string)
    ensures |s| > 0
    ensures forall i :: 0 <= i < |s| ==> '0' <= s[i] <= '9'
    ensures DigitsValue(s) == n
    ensures n > 0 ==> s[0] != '0'
  {
    var d := ['0', '1', '2', '3', '4', '5', '6', '7', '8', '9'];
    if n < 10 then [d[n]] else NatToString(n / 10) + [d[n % 10]]
  }
}
