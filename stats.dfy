/**
 * The descriptive statistics the batch pipeline takes from numpy and pandas:
 * an ascending sort, median, arithmetic mean, minimum, maximum, and the
 * most frequent value used by pandas' Series.mode.
 */
module Stats {

  predicate Sorted(s: seq<real>) {
    forall i, j :: 0 <= i < j < |s| ==> s[i] <= s[j]
  }

  function Insert(x: real, s: seq<real>): (r: seq<real>)
    requires Sorted(s)
    ensures |r| == |s| + 1
    ensures Sorted(r)
    ensures multiset(r) == multiset(s) + multiset{x}
    ensures forall y :: y in r ==> y == x || y in s
  {
    if |s| == 0 || x <= s[0] then [x] + s
    else
      var tail := Insert(x, s[1..]);
      assert s == [s[0]] + s[1..];
      assert forall k :: 0 <= k < |tail| ==> s[0] <= tail[k] by {
        assert forall y :: y in s[1..] ==> s[0] <= y;
        assert forall k :: 0 <= k < |tail| ==> tail[k] in tail;
      }
      [s[0]] + tail
  }

  /** The values in ascending order: a sorted permutation of the input. */
  function SortAscending(s: seq<real>): (r: seq<real>)
    ensures |r| == |s|
    ensures Sorted(r)
    ensures multiset(r) == multiset(s)
  {
    if |s| == 0 then []
    else
      assert s == [s[0]] + s[1..];
      Insert(s[0], SortAscending(s[1..]))
  }

  /** numpy.min: the least value. */
  function Min(s: seq<real>): (m: real)
    requires |s| > 0
    ensures m in s
    ensures forall x :: x in s ==> m <= x
  {
    if |s| == 1 then s[0]
    else
      var rest := Min(s[1..]);
      assert forall x :: x in s ==> x == s[0] || x in s[1..];
      if s[0] <= rest then s[0] else rest
  }

  /** numpy.max: the greatest value. */
  function Max(s: seq<real>): (m: real)
    requires |s| > 0
    ensures m in s
    ensures forall x :: x in s ==> x <= m
  {
    if |s| == 1 then s[0]
    else
      var rest := Max(s[1..]);
      assert forall x :: x in s ==> x == s[0] || x in s[1..];
      if s[0] >= rest then s[0] else rest
  }

  /** numpy.median and pandas' Series.median: the middle value of the sorted values, or the mean of the two middle ones. */
  function Median(s: seq<real>): real
    requires |s| > 0
  {
    var t := SortAscending(s);
    var n := |t|;
    if n % 2 == 1 then t[n / 2] else (t[n / 2 - 1] + t[n / 2]) / 2.0
  }

  function Sum(s: seq<real>): real {
    if |s| == 0 then 0.0 else s[0] + Sum(s[1..])
  }

  /** numpy.mean: the arithmetic mean. */
  function Mean(s: seq<real>): real
    requires |s| > 0
  {
    Sum(s) / |s| as real
  }

  lemma {:induction false} SumBounds(s: seq<real>, lo: real, hi: real)
    requires forall x :: x in s ==> lo <= x <= hi
    ensures |s| as real * lo <= Sum(s) <= |s| as real * hi
  {
    if |s| > 0 {
      assert forall x :: x in s[1..] ==> x in s;
      SumBounds(s[1..], lo, hi);
      assert s[0] in s;
      StepBounds(|s[1..]| as real, s[0], Sum(s[1..]), lo, hi);
    }
  }

  lemma StepBounds(m: real, x: real, rest: real, lo: real, hi: real)
    requires lo <= x <= hi
    requires m * lo <= rest <= m * hi
    ensures (m + 1.0) * lo <= x + rest <= (m + 1.0) * hi
  {
    assert (m + 1.0) * lo == m * lo + lo;
    assert (m + 1.0) * hi == m * hi + hi;
  }

  /** Any bounds on all values bound the mean. */
  lemma MeanWithin(s: seq<real>, lo: real, hi: real)
    requires |s| > 0
    requires forall x :: x in s ==> lo <= x <= hi
    ensures lo <= Mean(s) <= hi
  {
    SumBounds(s, lo, hi);
    QuotientBounds(Sum(s), |s| as real, lo, hi);
  }

  /** The mean lies between the least and the greatest value. */
  lemma MeanBounds(s: seq<real>)
    requires |s| > 0
    ensures Min(s) <= Mean(s) <= Max(s)
  {
    MeanWithin(s, Min(s), Max(s));
  }

  lemma QuotientBounds(a: real, n: real, lo: real, hi: real)
    requires n > 0.0 && n * lo <= a <= n * hi
    ensures lo <= a / n <= hi
  {
    var q := a / n;
    assert q * n == a;
    assert (q - lo) * n == a - n * lo;
    assert (hi - q) * n == n * hi - a;
  }

  /** Every value of the sorted sequence is one of the input's values. */
  lemma SortedElement(s: seq<real>, k: nat)
    requires k < |s|
    ensures SortAscending(s)[k] in s
  {
    var t := SortAscending(s);
    assert t[k] in multiset(t);
  }

  /** Any bounds on all values bound the median. */
  lemma MedianWithin(s: seq<real>, lo: real, hi: real)
    requires |s| > 0
    requires forall x :: x in s ==> lo <= x <= hi
    ensures lo <= Median(s) <= hi
  {
    var t := SortAscending(s);
    var n := |t|;
    SortedElement(s, n / 2);
    var b := t[n / 2];
    assert lo <= b <= hi;
    if n % 2 == 0 {
      SortedElement(s, n / 2 - 1);
      var a := t[n / 2 - 1];
      assert lo <= a <= hi;
      assert Median(s) == (a + b) / 2.0;
    } else {
      assert Median(s) == b;
    }
  }

  /** The median lies between the least and the greatest value. */
  lemma MedianBounds(s: seq<real>)
    requires |s| > 0
    ensures Min(s) <= Median(s) <= Max(s)
  {
    MedianWithin(s, Min(s), Max(s));
  }

  // ---------------------------------------------------------------------
  // The most frequent value (pandas' Series.mode()[0])
  // ---------------------------------------------------------------------

  /** Among the candidates, one that occurs in xs at least as often as any other; the first such on ties. */
  function MostFrequentAmong<T(==)>(xs: seq<T>, candidates: seq<T>): (m: T)
    requires |candidates| > 0
    ensures m in candidates
    ensures forall y :: y in candidates ==> multiset(xs)[y] <= multiset(xs)[m]
  {
    if |candidates| == 1 then candidates[0]
    else
      var best := MostFrequentAmong(xs, candidates[1..]);
      assert forall y :: y in candidates ==> y == candidates[0] || y in candidates[1..];
      if multiset(xs)[candidates[0]] >= multiset(xs)[best] then candidates[0] else best
  }

  /** A value of xs that no other value of xs outnumbers. */
  function Mode<T(==)>(xs: seq<T>): (m: T)
    requires |xs| > 0
    ensures m in xs
    ensures forall y :: y in xs ==> multiset(xs)[y] <= multiset(xs)[m]
  {
    MostFrequentAmong(xs, xs)
  }
}
