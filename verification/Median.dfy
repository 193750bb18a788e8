/** The median of a window's values (backtest/universe.py). */
module Median {
  import opened Text
  import opened Sorting

  predicate AtMostReal(a: real, b: real) { a <= b }

  /** Nothing for an empty sequence, where the source raises. */
  function MedianOf(values: seq<real>): Option<real> {
    if values == [] then None
    else
      var ordered := Sort(AtMostReal, values);
      SortPermutes(AtMostReal, values);
      Some(Middle(ordered))
  }

  function Middle(ordered: seq<real>): real
    requires ordered != []
  {
    var mid := |ordered| / 2;
    if |ordered| % 2 == 1 then ordered[mid] else 0.5 * (ordered[mid - 1] + ordered[mid])
  }

  function Count(values: seq<real>, wanted: real -> bool): nat {
    if values == [] then 0 else (if wanted(values[0]) then 1 else 0) + Count(values[1..], wanted)
  }

  lemma {:induction false} CountOfInsert(x: real, xs: seq<real>, wanted: real -> bool)
    ensures Count(Insert(AtMostReal, x, xs), wanted) == (if wanted(x) then 1 else 0) + Count(xs, wanted)
  {
    if xs == [] || x <= xs[0] {
      assert ([x] + xs)[1..] == xs;
    } else {
      CountOfInsert(x, xs[1..], wanted);
      assert ([xs[0]] + Insert(AtMostReal, x, xs[1..]))[1..] == Insert(AtMostReal, x, xs[1..]);
    }
  }

  lemma {:induction false} CountOfSorted(xs: seq<real>, wanted: real -> bool)
    ensures Count(Sort(AtMostReal, xs), wanted) == Count(xs, wanted)
  {
    if xs != [] {
      CountOfSorted(xs[1..], wanted);
      CountOfInsert(xs[0], Sort(AtMostReal, xs[1..]), wanted);
    }
  }

  lemma {:induction false} CountOfRange(xs: seq<real>, from: nat, to: nat, wanted: real -> bool)
    requires from <= to <= |xs| && forall i :: from <= i < to ==> wanted(xs[i])
    ensures Count(xs, wanted) >= to - from
  {
    if xs != [] {
      if from > 0 {
        CountOfRange(xs[1..], from - 1, to - 1, wanted);
      } else if to > 0 {
        CountOfRange(xs[1..], 0, to - 1, wanted);
      }
    }
  }

  lemma MiddleDivides(ordered: seq<real>)
    requires ordered != [] && SortedBy(AtMostReal, ordered)
    ensures var m, n := Middle(ordered), |ordered|;
            && (forall i :: 0 <= i < (n + 1) / 2 ==> ordered[i] <= m)
            && (forall i :: n / 2 <= i < n ==> m <= ordered[i])
  {
    var n, mid := |ordered|, |ordered| / 2;
    forall i | 0 <= i < n
      ensures i <= mid ==> ordered[i] <= ordered[mid]
      ensures i >= mid ==> ordered[mid] <= ordered[i]
      ensures mid > 0 && i <= mid - 1 ==> ordered[i] <= ordered[mid - 1]
    {
      assert i < mid ==> AtMostReal(ordered[i], ordered[mid]);
      assert mid < i ==> AtMostReal(ordered[mid], ordered[i]);
      assert mid > 0 && i < mid - 1 ==> AtMostReal(ordered[i], ordered[mid - 1]);
    }
  }

  /** At least half the values lie at or below the median, and at least half at or above it. */
  lemma MedianHalves(values: seq<real>)
    requires values != []
    ensures var m := MedianOf(values).value;
            && 2 * Count(values, x => x <= m) >= |values|
            && 2 * Count(values, x => x >= m) >= |values|
  {
    hide Sort, Middle, SortedBy;
    var ordered := Sort(AtMostReal, values);
    SortPermutes(AtMostReal, values);
    SortSorts(AtMostReal, values);
    var n, m := |ordered|, MedianOf(values).value;
    MiddleDivides(ordered);
    CountOfSorted(values, x => x <= m);
    CountOfSorted(values, x => x >= m);
    CountOfRange(ordered, 0, (n + 1) / 2, x => x <= m);
    CountOfRange(ordered, n / 2, n, x => x >= m);
  }

  lemma {:induction false} CountAtMost(xs: seq<real>, to: nat, wanted: real -> bool)
    requires to <= |xs| && forall i :: to <= i < |xs| ==> !wanted(xs[i])
    ensures Count(xs, wanted) <= to
  {
    if xs != [] {
      CountAtMost(xs[1..], if to > 0 then to - 1 else 0, wanted);
    }
  }

  /** `x` stands at place `k` of the values in ascending order. */
  predicate StandsAt(values: seq<real>, x: real, k: nat) {
    Count(values, y => y < x) <= k < Count(values, y => y <= x)
  }

  lemma SortedPlace(values: seq<real>, k: nat)
    requires k < |values|
    ensures |Sort(AtMostReal, values)| == |values| && StandsAt(values, Sort(AtMostReal, values)[k], k)
  {
    var ordered := Sort(AtMostReal, values);
    SortPermutes(AtMostReal, values);
    SortSorts(AtMostReal, values);
    var x := ordered[k];
    assert forall i :: 0 <= i < k ==> AtMostReal(ordered[i], x);
    assert forall i :: k < i < |ordered| ==> AtMostReal(x, ordered[i]);
    CountOfSorted(values, y => y < x);
    CountOfSorted(values, y => y <= x);
    CountOfRange(ordered, 0, k + 1, y => y <= x);
    CountAtMost(ordered, k, y => y < x);
  }

  /** The median is the mean of the two values in the middle, which are one for an odd number of them. */
  lemma MedianIsTheMean(values: seq<real>) returns (a: real, b: real)
    requires values != []
    ensures StandsAt(values, a, (|values| - 1) / 2) && StandsAt(values, b, |values| / 2)
    ensures MedianOf(values) == Some((a + b) / 2.0)
  {
    hide StandsAt, Sort;
    var ordered, n := Sort(AtMostReal, values), |values|;
    SortedPlace(values, (n - 1) / 2);
    SortedPlace(values, n / 2);
    a, b := ordered[(n - 1) / 2], ordered[n / 2];
    assert n % 2 == 1 ==> (n - 1) / 2 == n / 2;
    assert n % 2 == 0 ==> (n - 1) / 2 == n / 2 - 1;
  }

  /** Only one value stands at a place. */
  lemma PlaceIsOne(values: seq<real>, k: nat, x: real, y: real)
    requires StandsAt(values, x, k) && StandsAt(values, y, k)
    ensures x == y
  {
    if x < y {
      MoreCounted(values, v => v <= x, v => v < y);
    } else if y < x {
      MoreCounted(values, v => v <= y, v => v < x);
    }
  }

  lemma {:induction false} MoreCounted(values: seq<real>, fewer: real -> bool, more: real -> bool)
    requires forall v :: fewer(v) ==> more(v)
    ensures Count(values, fewer) <= Count(values, more)
  {
    if values != [] { MoreCounted(values[1..], fewer, more); }
  }

  /** The median does not depend on the order of the values. */
  lemma MedianIgnoresOrder(a: seq<real>, b: seq<real>)
    requires multiset(a) == multiset(b)
    ensures MedianOf(a) == MedianOf(b)
  {
    assert |a| == |multiset(a)| == |multiset(b)| == |b|;
    SortIsCanonical(AtMostReal, a, b);
  }
}
