/** `for_each_bar` of core/backtest_main.cpp as the code runs it: both walks hand the
    bars one by one to a callback and count them per symbol. */
module BarWalk {
  import opened Text
  import opened Sorting
  import opened Tape
  import opened TapeRefinement

  function CountOf(rows: seq<BarRow>, symbol: string): nat {
    if rows == [] then 0
    else CountOf(rows[..|rows| - 1], symbol) + (if rows[|rows| - 1].symbol == symbol then 1 else 0)
  }

  class Walk {
    const db: seq<BarRow>
    const symbols: seq<string>
    const timeframe: string
    const start: string
    const end: string
    var delivered: seq<BarRow>     // the calls of the callback, in order
    var usable: map<string, nat>

    constructor (db: seq<BarRow>, symbols: seq<string>, timeframe: string, start: string, end: string)
      ensures this.db == db && this.symbols == symbols && this.timeframe == timeframe
      ensures this.start == start && this.end == end && delivered == [] && Counted()
      ensures usable.Keys == (set s | s in symbols)
    {
      this.db, this.symbols, this.timeframe, this.start, this.end := db, symbols, timeframe, start, end;
      delivered := [];
      usable := map s | s in symbols :: 0;
    }

    ghost predicate Counted()
      reads this
    {
      && (forall s :: s in symbols ==> s in usable)
      && forall s :: s in usable ==> usable[s] == CountOf(delivered, s)
    }

    method Deliver(r: BarRow)
      requires Counted() && r.symbol in symbols
      modifies this`delivered, this`usable
      ensures Counted() && delivered == old(delivered) + [r]
    {
      usable := usable[r.symbol := usable[r.symbol] + 1];
      delivered := delivered + [r];
      assert delivered[..|delivered| - 1] == old(delivered);
    }

    method DeliverAll(rows: seq<BarRow>)
      requires Counted() && forall r :: r in rows ==> r.symbol in symbols
      modifies this`delivered, this`usable
      ensures Counted() && delivered == old(delivered) + rows
    {
      for i := 0 to |rows|
        invariant Counted() && delivered == old(delivered) + rows[..i]
      {
        Deliver(rows[i]);
        assert rows[..i + 1] == rows[..i] + [rows[i]];
      }
    }

    /** Every symbol's rows, sorted: the whole tape in memory. */
    method LoadTape() returns (tape: seq<BarRow>)
      ensures tape == HeldTape(db, symbols, timeframe, start, end)
      ensures forall r :: r in tape ==> r.symbol in symbols
    {
      var rows: seq<BarRow> := [];
      for i := 0 to |symbols|
        invariant rows + Collect(db, symbols[i..], timeframe, start, end) == Collect(db, symbols, timeframe, start, end)
      {
        var read := RealBarsInRange(db, symbols[i], timeframe, start, end);
        CollectStep(db, symbols, i, timeframe, start, end);
        Concatenation(rows, read, Collect(db, symbols[i + 1..], timeframe, start, end));
        rows := rows + read;
      }
      assert rows + [] == rows;
      SortPermutes(BarOrder, rows);
      forall r | r in rows
        ensures r.symbol in symbols
      {
        CollectedRow(db, symbols, timeframe, start, end, r);
      }
      tape := Sort(BarOrder, rows);
    }

    /** `--hold-tape`. */
    method HoldTape()
      requires Counted()
      modifies this`delivered, this`usable
      ensures Counted() && delivered == old(delivered) + HeldTape(db, symbols, timeframe, start, end)
    {
      var tape := LoadTape();
      DeliverAll(tape);
    }

    /** One window: the rows between its edges that the previous window did not deliver, sorted. */
    method ReadWindow(wstart: string, wend: string, bound: string) returns (window: seq<BarRow>)
      ensures window == Window(db, symbols, timeframe, wstart, wend, bound)
      ensures forall r :: r in window ==> r.symbol in symbols
    {
      var rows: seq<BarRow> := [];
      for i := 0 to |symbols|
        invariant rows + AfterBound(Collect(db, symbols[i..], timeframe, wstart, wend), bound)
               == AfterBound(Collect(db, symbols, timeframe, wstart, wend), bound)
      {
        var read := RealBarsInRange(db, symbols[i], timeframe, wstart, wend);
        ghost var rest := Collect(db, symbols[i + 1..], timeframe, wstart, wend);
        CollectStep(db, symbols, i, timeframe, wstart, wend);
        AfterBoundOfJoin(read, rest, bound);
        Concatenation(rows, AfterBound(read, bound), AfterBound(rest, bound));
        rows := rows + AfterBound(read, bound);
      }
      assert rows + [] == rows;
      SortPermutes(BarOrder, rows);
      forall r | r in rows
        ensures r.symbol in symbols
      {
        AfterBoundRow(Collect(db, symbols, timeframe, wstart, wend), bound, r);
        CollectedRow(db, symbols, timeframe, wstart, wend, r);
      }
      window := Sort(BarOrder, rows);
    }

    /** The default walk: one month in memory at a time. */
    method Stream()
      requires Counted() && WellFormed(db, start, end)
      modifies this`delivered, this`usable
      ensures Counted() && delivered == old(delivered) + StreamTape(db, symbols, timeframe, start, end)
    {
      var lo := WalkLow(db, start);
      var hi := WalkHigh(db, end);
      if lo == "" || hi == "" || Less(hi, lo) {
        return;
      }
      BoundsAreStamps(db, start, end);
      StampBelowEnd(lo);
      StampBelowEnd(hi);
      var y: nat, m: nat := YearOf(lo), MonthOf(lo);
      var wstart, bound := lo, "";
      ghost var goal := StreamTape(db, symbols, timeframe, start, end);
      ghost var done: seq<BarRow> := [];
      while true
        invariant y <= LAST_YEAR && 1 <= m <= 12 && Counted()
        invariant delivered == old(delivered) + done
        invariant done + StreamFrom(db, symbols, timeframe, hi, wstart, bound, y, m) == goal
        decreases (99_990 - y) * 12 - m
      {
        var next := MonthStart(NextYear(y, m), NextMonth(m));
        var wend := if Less(next, hi) then next else hi;
        var window := ReadWindow(wstart, wend, bound);
        DeliverAll(window);
        Concatenation(old(delivered), done, window);
        if wend == hi {
          LessTrichotomy(next, hi);
          return;
        }
        LessTrichotomy(next, hi);
        NextWindow(hi, y, m);
        ghost var rest := StreamFrom(db, symbols, timeframe, hi, next, next, NextYear(y, m), NextMonth(m));
        Concatenation(done, window, rest);
        done := done + window;
        bound, wstart := wend, wend;
        y, m := NextYear(y, m), NextMonth(m);
      }
    }
  }

  lemma CollectStep(db: seq<BarRow>, symbols: seq<string>, i: nat, tf: string, start: string, end: string)
    requires i < |symbols|
    ensures Collect(db, symbols[i..], tf, start, end)
         == RealBarsInRange(db, symbols[i], tf, start, end) + Collect(db, symbols[i + 1..], tf, start, end)
  {
    assert symbols[i..][1..] == symbols[i + 1..];
  }

  lemma NextWindow(hi: string, y: nat, m: nat)
    requires y <= LAST_YEAR && 1 <= m <= 12 && Less(hi, FIVE_DIGIT_END)
    requires Less(MonthStart(NextYear(y, m), NextMonth(m)), hi)
    ensures NextYear(y, m) <= LAST_YEAR
  {
    LessTrichotomy(MonthStart(NextYear(y, m), NextMonth(m)), hi);
  }

  lemma {:induction false} AfterBoundOfJoin(a: seq<BarRow>, b: seq<BarRow>, bound: string)
    ensures AfterBound(a + b, bound) == AfterBound(a, bound) + AfterBound(b, bound)
  {
    if a == [] {
      assert a + b == b;
    } else {
      assert (a + b)[1..] == a[1..] + b;
      AfterBoundOfJoin(a[1..], b, bound);
    }
  }

  lemma {:induction false} AfterBoundRow(rows: seq<BarRow>, bound: string, r: BarRow)
    requires r in AfterBound(rows, bound)
    ensures r in rows
  {
    if r != rows[0] { AfterBoundRow(rows[1..], bound, r); }
  }
}
