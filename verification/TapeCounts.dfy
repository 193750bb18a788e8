/** How often a bar is delivered: once by the held tape, and as often by the streaming walk exactly
    when that walk passes over no row again. */
module TapeCounts {
  import opened Text
  import opened Sorting
  import opened Tape
  import opened TapeRefinement
  import opened BarWalk

  predicate Distinct<T(==)>(xs: seq<T>) { forall i, j :: 0 <= i < j < |xs| ==> xs[i] != xs[j] }

  /** The bars `--symbols`, the timeframe, `--start` and `--end` ask for: real ones, neither before the one
      nor after the other. */
  predicate Selected(db: seq<BarRow>, symbols: seq<string>, tf: string, start: string, end: string, x: BarRow) {
    && x in db && x.symbol in symbols && x.timeframe == tf
    && (x.source == "real_feed" || x.source == "backfill") && x.volumeSource != "fabricated_zeroed"
    && (start == "" || !Less(x.timestamp, start)) && (end == "" || !Less(end, x.timestamp))
  }

  /** By time, and bars of one moment by symbol. */
  ghost predicate InTapeOrder(rows: seq<BarRow>) {
    forall i, j :: 0 <= i < j < |rows| ==>
      || Less(rows[i].timestamp, rows[j].timestamp)
      || (rows[i].timestamp == rows[j].timestamp && !Less(rows[j].symbol, rows[i].symbol))
  }

  /** The sequence holds each of the bars asked for once, and no other, in the order of the tape. */
  ghost predicate EachOnce(rows: seq<BarRow>, db: seq<BarRow>, symbols: seq<string>, tf: string, start: string,
        end: string) {
    && Distinct(rows) && InTapeOrder(rows)
    && forall x :: x in rows <==> Selected(db, symbols, tf, start, end, x)
  }

  lemma {:induction false} MatchingOnce(db: seq<BarRow>, symbol: string, tf: string, keep: string -> bool, x: BarRow)
    requires Distinct(db)
    ensures multiset(Matching(db, symbol, tf, keep))[x]
         == if x in db && x.symbol == symbol && x.timeframe == tf && Usable(x) && keep(x.timestamp) then 1 else 0
  {
    if db != [] {
      MatchingOnce(db[1..], symbol, tf, keep, x);
      assert db == [db[0]] + db[1..];
      assert db[0] !in db[1..];
    }
  }

  lemma {:induction false} CollectOnce(db: seq<BarRow>, symbols: seq<string>, tf: string, start: string, end: string,
        x: BarRow)
    requires Distinct(db) && Distinct(symbols)
    ensures multiset(Collect(db, symbols, tf, start, end))[x]
         == if Selected(db, symbols, tf, start, end, x) then 1 else 0
  {
    hide Matching;
    if symbols != [] {
      var keep := (ts: string) => InRange(ts, start, end);
      CollectOnce(db, symbols[1..], tf, start, end, x);
      MatchingOnce(db, symbols[0], tf, keep, x);
      SortPermutes(ByTimestamp, Matching(db, symbols[0], tf, keep));
      assert symbols == [symbols[0]] + symbols[1..] && symbols[0] !in symbols[1..];
    }
  }

  lemma OnceMeansDistinct(rows: seq<BarRow>)
    ensures (forall x :: multiset(rows)[x] <= 1) <==> Distinct(rows)
  {
    if !Distinct(rows) {
      var i, j :| 0 <= i < j < |rows| && rows[i] == rows[j];
      assert rows == rows[..j] + rows[j..] && rows[i] in rows[..j] && rows[j] in rows[j..];
      assert multiset(rows)[rows[i]] == multiset(rows[..j])[rows[i]] + multiset(rows[j..])[rows[i]] >= 2;
    } else {
      forall x
        ensures multiset(rows)[x] <= 1
      {
        DistinctCounts(rows, x);
      }
    }
  }

  lemma {:induction false} DistinctCounts(rows: seq<BarRow>, x: BarRow)
    requires Distinct(rows)
    ensures multiset(rows)[x] <= 1
  {
    if rows != [] {
      DistinctCounts(rows[1..], x);
      assert rows == [rows[0]] + rows[1..] && rows[0] !in rows[1..];
    }
  }

  lemma SortedIsInTapeOrder(rows: seq<BarRow>)
    requires SortedBy(BarOrder, rows)
    ensures InTapeOrder(rows)
  {
    forall i, j | 0 <= i < j < |rows|
      ensures Less(rows[i].timestamp, rows[j].timestamp)
           || (rows[i].timestamp == rows[j].timestamp && !Less(rows[j].symbol, rows[i].symbol))
    {
      assert BarOrder(rows[i], rows[j]);
    }
  }

  /** The held tape holds each bar asked for once, and no other, in the order of the tape. */
  lemma HeldOnce(db: seq<BarRow>, symbols: seq<string>, tf: string, start: string, end: string)
    requires Distinct(db) && Distinct(symbols)
    ensures EachOnce(HeldTape(db, symbols, tf, start, end), db, symbols, tf, start, end)
  {
    hide Selected, Distinct;
    var rows, held := Collect(db, symbols, tf, start, end), HeldTape(db, symbols, tf, start, end);
    SortPermutes(BarOrder, rows);
    BarOrderIsTotal();
    SortSorts(BarOrder, rows);
    SortedIsInTapeOrder(held);
    forall x
      ensures multiset(held)[x] == if Selected(db, symbols, tf, start, end, x) then 1 else 0
    {
      CollectOnce(db, symbols, tf, start, end, x);
    }
    forall x
      ensures x in held <==> Selected(db, symbols, tf, start, end, x)
    {
      assert x in held <==> x in multiset(held);
    }
    OnceMeansDistinct(held);
  }

  // ----- The counts of the symbols ---------------------------------------------------------------

  function Without(rows: seq<BarRow>, i: nat): seq<BarRow>
    requires i < |rows|
  {
    rows[..i] + rows[i + 1..]
  }

  lemma {:induction false} CountWithout(rows: seq<BarRow>, i: nat, symbol: string)
    requires i < |rows|
    ensures CountOf(rows, symbol)
         == CountOf(Without(rows, i), symbol) + (if rows[i].symbol == symbol then 1 else 0)
    decreases |rows|
  {
    var n := |rows| - 1;
    var rest := Without(rows, i);
    if i == n {
      assert rest == rows[..n];
    } else {
      CountWithout(rows[..n], i, symbol);
      assert rest[..|rest| - 1] == Without(rows[..n], i);
    }
  }

  lemma Removed(rows: seq<BarRow>, r: BarRow) returns (i: nat)
    requires r in multiset(rows)
    ensures i < |rows| && rows[i] == r && multiset(rows) == multiset(Without(rows, i)) + multiset{r}
  {
    i :| 0 <= i < |rows| && rows[i] == r;
    assert rows == rows[..i] + [r] + rows[i + 1..];
  }

  /** A sequence with all of another's bars counts at least as many of a symbol. */
  lemma {:induction false} CountsGrow(a: seq<BarRow>, b: seq<BarRow>, symbol: string)
    requires multiset(a) <= multiset(b)
    ensures CountOf(a, symbol) <= CountOf(b, symbol)
    decreases |a|
  {
    hide Without;
    if a != [] {
      var n := |a| - 1;
      assert a == a[..n] + [a[n]] && a[n] in multiset(a);
      var i := Removed(b, a[n]);
      forall x
        ensures multiset(a[..n])[x] <= multiset(Without(b, i))[x]
      {
        assert multiset(a)[x] <= multiset(b)[x];
        assert multiset(a)[x] == multiset(a[..n])[x] + multiset{a[n]}[x];
        assert multiset(b)[x] == multiset(Without(b, i))[x] + multiset{a[n]}[x];
      }
      CountWithout(b, i, symbol);
      CountsGrow(a[..n], Without(b, i), symbol);
    }
  }

  /** And more of the symbol of a bar it holds more often. */
  lemma CountsGrowPast(a: seq<BarRow>, b: seq<BarRow>, r: BarRow)
    requires multiset(a) <= multiset(b) && multiset(a)[r] < multiset(b)[r]
    ensures CountOf(a, r.symbol) < CountOf(b, r.symbol)
  {
    hide Without;
    var i := Removed(b, r);
    CountWithout(b, i, r.symbol);
    CountsGrow(a, Without(b, i), r.symbol);
  }

  ghost predicate SameCounts(a: seq<BarRow>, b: seq<BarRow>) {
    forall symbol :: CountOf(a, symbol) == CountOf(b, symbol)
  }

  /** For distinct rows and symbols, the streaming walk delivers each bar asked for once, and counts
      every symbol's bars as the held tape does, exactly when it passes over no row again. */
  lemma EachBarOnce(db: seq<BarRow>, symbols: seq<string>, tf: string, start: string, end: string)
    requires WellFormed(db, start, end) && UniqueRows(db, tf) && Distinct(db) && Distinct(symbols)
    ensures EachOnce(HeldTape(db, symbols, tf, start, end), db, symbols, tf, start, end)
    ensures EachOnce(StreamTape(db, symbols, tf, start, end), db, symbols, tf, start, end)
       <==> !Rewalks(db, symbols, tf, start, end)
    ensures SameCounts(StreamTape(db, symbols, tf, start, end), HeldTape(db, symbols, tf, start, end))
       <==> !Rewalks(db, symbols, tf, start, end)
  {
    hide EachOnce, Rewalks, HeldTape, Distinct;
    HeldOnce(db, symbols, tf, start, end);
    StreamingIsTheHeldTape(db, symbols, tf, start, end);
    if Rewalks(db, symbols, tf, start, end) {
      var held, stream := HeldTape(db, symbols, tf, start, end), StreamTape(db, symbols, tf, start, end);
      var r := RewalkedRow(db, symbols, tf, start, end);
      CountsGrowPast(held, stream, r);
      if EachOnce(stream, db, symbols, tf, start, end) {
        TwoArrangements(held, stream, db, symbols, tf, start, end, r);
      }
    }
  }

  /** What holds each of the bars once holds no bar more often than the held tape. */
  lemma TwoArrangements(a: seq<BarRow>, b: seq<BarRow>, db: seq<BarRow>, symbols: seq<string>, tf: string,
        start: string, end: string, r: BarRow)
    requires EachOnce(a, db, symbols, tf, start, end) && EachOnce(b, db, symbols, tf, start, end)
    ensures multiset(b)[r] <= multiset(a)[r]
  {
    hide Selected, Distinct;
    DistinctCounts(b, r);
    if r in multiset(b) {
      assert r in b;
      assert r in a;
      assert r in multiset(a);
    }
  }
}
