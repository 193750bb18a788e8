/** Statistics over emitted trades (backtest/report.py). */
module Report {
  import opened Text
  import opened Sorting

  datatype Trade = Trade(entryTs: string, ret: real, pnl: real)

  // ----- The drawdown ---------------------------------------------------------------------------

  /** The equity after the first `k` trades. */
  function Equity(trades: seq<Trade>, k: nat): real
    requires k <= |trades|
  {
    if k == 0 then 0.0 else Equity(trades, k - 1) + trades[k - 1].pnl
  }

  /** The least difference of the equity at a point and at an earlier or the same point. */
  ghost predicate IsDrawdown(trades: seq<Trade>, n: nat, d: real)
    requires n <= |trades|
  {
    && (forall i, j :: 0 <= i <= j <= n ==> d <= Equity(trades, j) - Equity(trades, i))
    && exists i, j :: 0 <= i <= j <= n && d == Equity(trades, j) - Equity(trades, i)
  }

  ghost predicate IsPeak(trades: seq<Trade>, n: nat, peak: real)
    requires n <= |trades|
  {
    && (forall i :: 0 <= i <= n ==> Equity(trades, i) <= peak)
    && exists i :: 0 <= i <= n && peak == Equity(trades, i)
  }

  lemma PeakStep(trades: seq<Trade>, n: nat, peak: real)
    requires n < |trades| && IsPeak(trades, n, peak)
    ensures var eq := Equity(trades, n + 1); IsPeak(trades, n + 1, if peak < eq then eq else peak)
  {
    hide Equity;
  }

  lemma DrawdownStep(trades: seq<Trade>, n: nat, peak: real, d: real)
    requires n < |trades| && IsPeak(trades, n + 1, peak) && IsDrawdown(trades, n, d)
    ensures var fall := Equity(trades, n + 1) - peak; IsDrawdown(trades, n + 1, if fall < d then fall else d)
  {
    hide Equity;
  }

  lemma StartsFlat(trades: seq<Trade>)
    ensures IsPeak(trades, 0, 0.0) && IsDrawdown(trades, 0, 0.0)
  {
    assert Equity(trades, 0) == 0.0;
  }

  /** One pass with a running peak: the least difference over all pairs of points in order. */
  method MaxDrawdown(trades: seq<Trade>) returns (mdd: real)
    ensures IsDrawdown(trades, |trades|, mdd) && mdd <= 0.0
  {
    hide IsPeak, IsDrawdown;
    var eq, peak := 0.0, 0.0;
    mdd := 0.0;
    StartsFlat(trades);
    for n := 0 to |trades|
      invariant eq == Equity(trades, n)
      invariant IsPeak(trades, n, peak) && IsDrawdown(trades, n, mdd) && mdd <= 0.0
    {
      PeakStep(trades, n, peak);
      eq := eq + trades[n].pnl;
      peak := if peak < eq then eq else peak;
      DrawdownStep(trades, n, peak, mdd);
      mdd := if eq - peak < mdd then eq - peak else mdd;
    }
  }

  /** There is only one such number. */
  lemma DrawdownIsUnique(trades: seq<Trade>, c: real, d: real)
    requires IsDrawdown(trades, |trades|, c) && IsDrawdown(trades, |trades|, d)
    ensures c == d
  {
    hide Equity;
  }

  // ----- Walk-forward folds ------------------------------------------------------------------------

  predicate EntersFirst(a: Trade, b: Trade) { AtMost(a.entryTs, b.entryTs) }

  datatype Fold = Fold(number: int, trades: seq<Trade>, firstTs: string, lastTs: string)

  /** The source's `//`, on numbers that are not negative. */
  function Quotient(a: nat, k: nat): nat
    requires k > 0
  {
    a / k
  }

  function Cut(n: nat, f: nat, folds: nat): nat
    requires folds > 0
  {
    Quotient(n * f, folds)
  }

  /** The least size of a fold. */
  function Share(n: nat, folds: nat): nat
    requires folds > 0
  {
    Quotient(n, folds)
  }

  lemma CutsAreEven(n: nat, f: nat, folds: nat)
    requires folds > 0
    ensures Cut(n, 0, folds) == 0 && Cut(n, folds, folds) == n
    ensures Share(n, folds) <= Cut(n, f + 1, folds) - Cut(n, f, folds) <= Share(n, folds) + 1
  {
    hide Quotient;
    FloorIsExact(0, folds);
    FloorIsExact(n, folds);
    assert n * (f + 1) == n * f + n && n * 0 == 0 * folds;
    FloorsOfSum(n * f, n, folds);
  }

  /** A quotient of a sum is the sum of the quotients, or one more. */
  lemma FloorsOfSum(a: nat, b: nat, k: nat)
    requires k > 0
    ensures Quotient(b, k) <= Quotient(a + b, k) - Quotient(a, k) <= Quotient(b, k) + 1
  {
    hide Quotient;
    Floor(a, k);
    Floor(b, k);
    Floor(a + b, k);
    FloorOfSum(a, b, k, Quotient(a, k), Quotient(b, k), Quotient(a + b, k));
  }

  lemma Floor(a: nat, k: nat)
    requires k > 0
    ensures k * Quotient(a, k) <= a < k * Quotient(a, k) + k
  {}

  lemma MulOrder(k: nat, a: int, b: int)
    requires k > 0
    ensures a < b <==> k * a < k * b
  {
    assert k * b - k * a == k * (b - a);
  }

  lemma FloorIsExact(n: nat, k: nat)
    requires k > 0
    ensures Quotient(n * k, k) == n
  {
    hide Quotient;
    var q := Quotient(n * k, k);
    Floor(n * k, k);
    MulOrder(k, n, q);
    MulOrder(k, n, q + 1);
  }

  lemma FloorOfSum(a: nat, b: nat, k: nat, x: nat, y: nat, z: nat)
    requires k > 0 && k * x <= a < k * x + k && k * y <= b < k * y + k && k * z <= a + b < k * z + k
    ensures x + y <= z <= x + y + 1
  {
    MulOrder(k, x + y, z + 1);
    MulOrder(k, z, x + y + 2);
    assert k * (x + y) == k * x + k * y && k * (z + 1) == k * z + k && k * (x + y + 2) == k * x + k * y + 2 * k;
  }

  /** Slice `f` of the sorted trades, with the first and last time in it. */
  function FoldOf(sorted: seq<Trade>, f: nat, folds: nat): Fold
    requires f < folds
  {
    hide Cut, Share;
    var n := |sorted|;
    CutsAreEven(n, f, folds);
    CutWithin(n, f + 1, folds);
    var slice := sorted[Cut(n, f, folds)..Cut(n, f + 1, folds)];
    Fold(f + 1, slice, if slice == [] then "" else slice[0].entryTs,
          if slice == [] then "" else slice[|slice| - 1].entryTs)
  }

  lemma CutWithin(n: nat, f: nat, folds: nat)
    requires f <= folds && folds > 0
    ensures Cut(n, f, folds) <= n
  {
    FloorIsExact(n, folds);
    Floor(n * f, folds);
    MulOrder(folds, n, Cut(n, f, folds));
    assert n * f <= n * folds;
  }

  /** The first `f` folds. */
  function Folds(sorted: seq<Trade>, f: nat, folds: nat): seq<Fold>
    requires f <= folds
  {
    if f == 0 then [] else Folds(sorted, f - 1, folds) + [FoldOf(sorted, f - 1, folds)]
  }

  /** `walk_forward`: one fold per slice of the trades sorted by entry time. */
  method WalkForward(trades: seq<Trade>, folds: int) returns (out: seq<Fold>)
    ensures out == if trades == [] || folds <= 0 then [] else Folds(Sort(EntersFirst, trades), folds, folds)
  {
    hide Sort, EntersFirst, FoldOf;
    var sorted := Sort(EntersFirst, trades);
    SortPermutes(EntersFirst, trades);
    out := [];
    if sorted == [] {
      return;
    }
    var f := 0;
    while f < folds
      invariant 0 <= f && (folds <= 0 ==> out == []) && (folds > 0 ==> f <= folds && out == Folds(sorted, f, folds))
    {
      out := out + [FoldOf(sorted, f, folds)];
      f := f + 1;
    }
  }

  function Slices(folds: seq<Fold>): seq<Trade> {
    if folds == [] then [] else Slices(folds[..|folds| - 1]) + folds[|folds| - 1].trades
  }

  lemma SlicesStep(out: seq<Fold>, fold: Fold)
    ensures Slices(out + [fold]) == Slices(out) + fold.trades
  {
    assert (out + [fold])[..|out|] == out;
  }

  lemma {:induction false} SlicesUpTo(sorted: seq<Trade>, f: nat, folds: nat)
    requires f <= folds && folds > 0
    ensures |Folds(sorted, f, folds)| == f && Cut(|sorted|, f, folds) <= |sorted|
    ensures Slices(Folds(sorted, f, folds)) == sorted[..Cut(|sorted|, f, folds)]
    ensures forall g :: 0 <= g < f ==> Folds(sorted, f, folds)[g] == FoldOf(sorted, g, folds)
  {
    hide Cut, Share, Slices, FoldOf;
    var n := |sorted|;
    CutsAreEven(n, 0, folds);
    CutWithin(n, f, folds);
    if f == 0 {
      NoSlices();
    } else {
      SlicesUpTo(sorted, f - 1, folds);
      CutsAreEven(n, f - 1, folds);
      SlicesStep(Folds(sorted, f - 1, folds), FoldOf(sorted, f - 1, folds));
      FoldContinues(sorted, f - 1, folds);
    }
  }

  lemma FoldContinues(sorted: seq<Trade>, f: nat, folds: nat)
    requires f < folds
    ensures Cut(|sorted|, f, folds) <= Cut(|sorted|, f + 1, folds) <= |sorted|
    ensures sorted[..Cut(|sorted|, f, folds)] + FoldOf(sorted, f, folds).trades == sorted[..Cut(|sorted|, f + 1, folds)]
  {
    hide Cut, Share;
    var n := |sorted|;
    CutsAreEven(n, f, folds);
    CutWithin(n, f + 1, folds);
    Glue(sorted, Cut(n, f, folds), Cut(n, f + 1, folds));
  }

  lemma Glue<T>(s: seq<T>, a: nat, b: nat)
    requires a <= b <= |s|
    ensures s[..a] + s[a..b] == s[..b]
  {}

  lemma NoSlices()
    ensures Slices([]) == []
  {}

  /** A fold names the entry times of its first and its last trade, or nothing when it has none. */
  predicate NamesItsEnds(fold: Fold) {
    if fold.trades == [] then fold.firstTs == fold.lastTs == ""
    else fold.firstTs == fold.trades[0].entryTs && fold.lastTs == fold.trades[|fold.trades| - 1].entryTs
  }

  /** A fold is the trades from one whole part of the share to the next. */
  lemma FoldIsSlice(sorted: seq<Trade>, f: nat, folds: nat) returns (from: nat, to: nat)
    requires f < folds
    ensures from * folds <= |sorted| * f < (from + 1) * folds
    ensures to * folds <= |sorted| * (f + 1) < (to + 1) * folds
    ensures from <= to <= |sorted| && FoldOf(sorted, f, folds).trades == sorted[from..to]
  {
    hide Cut, Share;
    from, to := Cut(|sorted|, f, folds), Cut(|sorted|, f + 1, folds);
    CutIsWhole(|sorted|, f, folds);
    CutIsWhole(|sorted|, f + 1, folds);
    CutsAreEven(|sorted|, f, folds);
    CutWithin(|sorted|, f + 1, folds);
  }

  lemma CutIsWhole(n: nat, f: nat, folds: nat)
    requires folds > 0
    ensures Cut(n, f, folds) * folds <= n * f < (Cut(n, f, folds) + 1) * folds
  {
    hide Quotient;
    var c := Cut(n, f, folds);
    Floor(n * f, folds);
    Commutes(c, folds);
  }

  lemma Commutes(c: nat, k: nat)
    ensures c * k == k * c && (c + 1) * k == k * c + k
  {}

  /** The slices put together are all the trades, sorted by entry, and their sizes differ by at most one. */
  lemma FoldsCoverTheTrades(trades: seq<Trade>, folds: nat)
    requires folds > 0
    ensures var sorted := Sort(EntersFirst, trades); var all := Folds(sorted, folds, folds);
            && |all| == folds && Slices(all) == sorted && multiset(Slices(all)) == multiset(trades)
            && forall g :: 0 <= g < folds ==>
                 && all[g].number == g + 1 && NamesItsEnds(all[g])
                 && Share(|trades|, folds) <= |all[g].trades| <= Share(|trades|, folds) + 1
  {
    hide Sort, EntersFirst, Cut, Share, Slices, Folds;
    var sorted := Sort(EntersFirst, trades);
    SortPermutes(EntersFirst, trades);
    SlicesUpTo(sorted, folds, folds);
    CutsAreEven(|sorted|, 0, folds);
    assert sorted[..|sorted|] == sorted;
    forall g | 0 <= g < folds
      ensures Folds(sorted, folds, folds)[g].number == g + 1 && NamesItsEnds(Folds(sorted, folds, folds)[g])
      ensures Share(|trades|, folds) <= |Folds(sorted, folds, folds)[g].trades| <= Share(|trades|, folds) + 1
    {
      CutsAreEven(|sorted|, g, folds);
      CutWithin(|sorted|, g + 1, folds);
    }
  }

  /** The folds are chronological: no trade of an earlier fold enters after one of a later fold. */
  lemma FoldsAreChronological(trades: seq<Trade>, f: nat, g: nat, folds: nat, i: nat, j: nat)
    requires f < g < folds
    requires var sorted := Sort(EntersFirst, trades);
             i < |FoldOf(sorted, f, folds).trades| && j < |FoldOf(sorted, g, folds).trades|
    ensures var sorted := Sort(EntersFirst, trades);
            AtMost(FoldOf(sorted, f, folds).trades[i].entryTs, FoldOf(sorted, g, folds).trades[j].entryTs)
  {
    hide Sort, Cut, Share;
    var sorted := Sort(EntersFirst, trades);
    var n := |sorted|;
    EntersFirstIsTotal();
    SortSorts(EntersFirst, trades);
    CutsGrow(n, f + 1, g, folds);
    CutsAreEven(n, f, folds);
    CutsAreEven(n, g, folds);
    CutWithin(n, f + 1, folds);
    CutWithin(n, g + 1, folds);
    assert EntersFirst(sorted[Cut(n, f, folds) + i], sorted[Cut(n, g, folds) + j]);
  }

  lemma {:induction false} CutsGrow(n: nat, f: nat, g: nat, folds: nat)
    requires f <= g && folds > 0
    ensures Cut(n, f, folds) <= Cut(n, g, folds)
    decreases g
  {
    hide Cut, Share;
    if f < g {
      CutsGrow(n, f, g - 1, folds);
      CutsAreEven(n, g - 1, folds);
    }
  }

  lemma EntersFirstIsTotal()
    ensures TotalPreorder(EntersFirst)
  {
    forall a: Trade, b: Trade, c: Trade
      ensures EntersFirst(a, b) || EntersFirst(b, a)
      ensures EntersFirst(a, b) && EntersFirst(b, c) ==> EntersFirst(a, c)
    {
      Order(a.entryTs, b.entryTs, c.entryTs);
    }
  }
}
