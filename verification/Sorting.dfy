/** A stable sort by a total preorder, and the uniqueness of sorted sequences. */
module Sorting {

  ghost predicate TotalPreorder<T(!new)>(leq: (T, T) -> bool) {
    && (forall a, b :: leq(a, b) || leq(b, a))
    && (forall a, b, c :: leq(a, b) && leq(b, c) ==> leq(a, c))
  }

  ghost predicate SortedBy<T>(leq: (T, T) -> bool, xs: seq<T>) {
    forall i, j :: 0 <= i < j < |xs| ==> leq(xs[i], xs[j])
  }

  /** Equivalent elements of `xs` are equal. */
  ghost predicate Antisymmetric<T(!new)>(leq: (T, T) -> bool, xs: multiset<T>) {
    forall a, b :: a in xs && b in xs && leq(a, b) && leq(b, a) ==> a == b
  }

  function Insert<T>(leq: (T, T) -> bool, x: T, xs: seq<T>): seq<T> {
    if xs == [] || leq(x, xs[0]) then [x] + xs
    else [xs[0]] + Insert(leq, x, xs[1..])
  }

  /** Stable: an element goes in front of the later elements equivalent to it. */
  function Sort<T>(leq: (T, T) -> bool, xs: seq<T>): seq<T> {
    if xs == [] then [] else Insert(leq, xs[0], Sort(leq, xs[1..]))
  }

  lemma {:induction false} InsertPermutes<T>(leq: (T, T) -> bool, x: T, xs: seq<T>)
    ensures multiset(Insert(leq, x, xs)) == multiset{x} + multiset(xs)
  {
    if xs != [] && !leq(x, xs[0]) {
      InsertPermutes(leq, x, xs[1..]);
      assert xs == [xs[0]] + xs[1..];
    }
  }

  lemma {:induction false} SortPermutes<T>(leq: (T, T) -> bool, xs: seq<T>)
    ensures multiset(Sort(leq, xs)) == multiset(xs)
    ensures |Sort(leq, xs)| == |xs|
    ensures forall x :: x in Sort(leq, xs) <==> x in xs
  {
    if xs != [] {
      SortPermutes(leq, xs[1..]);
      InsertPermutes(leq, xs[0], Sort(leq, xs[1..]));
      assert xs == [xs[0]] + xs[1..];
    }
    assert |multiset(Sort(leq, xs))| == |multiset(xs)|;
    forall x
      ensures x in Sort(leq, xs) <==> x in xs
    {
      assert x in Sort(leq, xs) <==> x in multiset(Sort(leq, xs));
      assert x in xs <==> x in multiset(xs);
    }
  }

  lemma {:induction false} InsertSorts<T(!new)>(leq: (T, T) -> bool, x: T, xs: seq<T>)
    requires TotalPreorder(leq) && SortedBy(leq, xs)
    ensures SortedBy(leq, Insert(leq, x, xs))
  {
    if xs != [] && !leq(x, xs[0]) {
      InsertSorts(leq, x, xs[1..]);
      var tail := Insert(leq, x, xs[1..]);
      InsertPermutes(leq, x, xs[1..]);
      forall j | 0 <= j < |tail|
        ensures leq(xs[0], tail[j])
      {
        assert tail[j] in multiset(tail);
        assert tail[j] == x || tail[j] in xs[1..];
      }
    }
  }

  lemma {:induction false} SortSorts<T(!new)>(leq: (T, T) -> bool, xs: seq<T>)
    requires TotalPreorder(leq)
    ensures SortedBy(leq, Sort(leq, xs))
  {
    if xs != [] {
      SortSorts(leq, xs[1..]);
      InsertSorts(leq, xs[0], Sort(leq, xs[1..]));
    }
  }

  /** Equivalent elements stand in the order `r`. */
  ghost predicate TiesInOrder<T>(leq: (T, T) -> bool, r: (T, T) -> bool, xs: seq<T>) {
    forall i, j :: 0 <= i < j < |xs| && leq(xs[i], xs[j]) && leq(xs[j], xs[i]) ==> r(xs[i], xs[j])
  }

  lemma {:induction false} InsertKeepsTies<T>(leq: (T, T) -> bool, r: (T, T) -> bool, x: T, xs: seq<T>)
    requires TiesInOrder(leq, r, xs) && forall y :: y in xs && leq(x, y) && leq(y, x) ==> r(x, y)
    ensures TiesInOrder(leq, r, Insert(leq, x, xs))
  {
    if xs != [] && !leq(x, xs[0]) {
      var tail := Insert(leq, x, xs[1..]);
      InsertKeepsTies(leq, r, x, xs[1..]);
      InsertPermutes(leq, x, xs[1..]);
      forall j | 0 <= j < |tail| && leq(xs[0], tail[j]) && leq(tail[j], xs[0])
        ensures r(xs[0], tail[j])
      {
        assert tail[j] in multiset(tail);
        assert tail[j] == x || tail[j] in xs[1..];
      }
    }
  }

  /** The sort is stable: equivalent elements keep their order. */
  lemma {:induction false} SortIsStable<T>(leq: (T, T) -> bool, r: (T, T) -> bool, xs: seq<T>)
    requires TiesInOrder(leq, r, xs)
    ensures TiesInOrder(leq, r, Sort(leq, xs))
  {
    if xs != [] {
      var tail, sorted := xs[1..], Sort(leq, xs[1..]);
      SortIsStable(leq, r, tail);
      SortPermutes(leq, tail);
      forall y | y in sorted && leq(xs[0], y) && leq(y, xs[0])
        ensures r(xs[0], y)
      {
        assert y in multiset(sorted) && y in multiset(tail);
        var j :| 0 <= j < |tail| && tail[j] == y;
        assert xs[j + 1] == y;
      }
      InsertKeepsTies(leq, r, xs[0], sorted);
    }
  }

  lemma SameHead<T(!new)>(leq: (T, T) -> bool, a: seq<T>, b: seq<T>)
    requires SortedBy(leq, a) && SortedBy(leq, b) && a != [] && b != []
    requires multiset(a) == multiset(b) && Antisymmetric(leq, multiset(a))
    ensures a[0] == b[0]
  {
    assert a[0] in multiset(a) && b[0] in multiset(b);
    var i :| 0 <= i < |b| && b[i] == a[0];
    var j :| 0 <= j < |a| && a[j] == b[0];
    if i > 0 && j > 0 { assert leq(a[0], a[j]) && leq(b[0], b[i]); }
  }

  lemma TailCounts<T>(a: seq<T>)
    requires a != []
    ensures multiset(a[1..]) == multiset(a) - multiset{a[0]}
  {
    assert a == [a[0]] + a[1..];
  }

  lemma TailSorted<T(!new)>(leq: (T, T) -> bool, a: seq<T>)
    requires a != [] && SortedBy(leq, a)
    ensures SortedBy(leq, a[1..])
  {}

  lemma PartAntisymmetric<T(!new)>(leq: (T, T) -> bool, all: multiset<T>, x: T)
    requires Antisymmetric(leq, all)
    ensures Antisymmetric(leq, all - multiset{x})
  {}

  /** Two sorted arrangements of the same elements are the same sequence. */
  lemma {:induction false} SortedUnique<T(!new)>(leq: (T, T) -> bool, a: seq<T>, b: seq<T>)
    requires SortedBy(leq, a) && SortedBy(leq, b)
    requires multiset(a) == multiset(b) && Antisymmetric(leq, multiset(a))
    ensures a == b
    decreases |a|
  {
    hide SortedBy, Antisymmetric;
    SameLength(a, b);
    if a != [] {
      SameHead(leq, a, b);
      TailCounts(a);
      TailCounts(b);
      TailSorted(leq, a);
      TailSorted(leq, b);
      PartAntisymmetric(leq, multiset(a), a[0]);
      SortedUnique(leq, a[1..], b[1..]);
      HeadAndTail(a, b);
    }
  }

  lemma SameLength<T>(a: seq<T>, b: seq<T>)
    requires multiset(a) == multiset(b)
    ensures |a| == |b|
  {
    assert |a| == |multiset(a)| && |b| == |multiset(b)|;
  }

  lemma HeadAndTail<T>(a: seq<T>, b: seq<T>)
    requires a != [] && b != [] && a[0] == b[0] && a[1..] == b[1..]
    ensures a == b
  {
    assert a == [a[0]] + a[1..] && b == [b[0]] + b[1..];
  }

  /** Sorting does not depend on the order of its input when equivalent elements are equal. */
  lemma SortIsCanonical<T(!new)>(leq: (T, T) -> bool, xs: seq<T>, ys: seq<T>)
    requires TotalPreorder(leq) && multiset(xs) == multiset(ys)
    requires Antisymmetric(leq, multiset(xs))
    ensures Sort(leq, xs) == Sort(leq, ys)
  {
    SortPermutes(leq, xs);
    SortPermutes(leq, ys);
    SortSorts(leq, xs);
    SortSorts(leq, ys);
    SortedUnique(leq, Sort(leq, xs), Sort(leq, ys));
  }
}
