/** The streaming walk delivers the held tape: each bar once, in the same order. */
module TapeRefinement {
  import opened Text
  import opened Sorting
  import opened Tape

  // ----- Months sort as their text does ----------------------------------------------

  lemma {:induction false} FixedWidthLess(a: nat, b: nat, w: nat, s: string, t: string)
    requires a < b < Power10(w)
    ensures Less(FixedWidth(a, w) + s, FixedWidth(b, w) + t)
  {
    if w != 0 {
      var pa, pb := FixedWidth(a / 10, w - 1), FixedWidth(b / 10, w - 1);
      var sa, sb := [Digit(a % 10)] + s, [Digit(b % 10)] + t;
      assert FixedWidth(a, w) + s == pa + sa && FixedWidth(b, w) + t == pb + sb;
      if a / 10 < b / 10 {
        FixedWidthLess(a / 10, b / 10, w - 1, sa, sb);
      } else {
        assert a / 10 == b / 10;
        LessUnderPrefix(pa, sa, sb);
      }
    }
  }

  lemma {:induction false} FixedWidthOfNatural(s: string)
    requires Digits(s)
    ensures FixedWidth(Natural(s), |s|) == s
  {
    if s != "" {
      var last := s[|s| - 1];
      assert last in s;
      FixedWidthOfNatural(s[..|s| - 1]);
      assert s == s[..|s| - 1] + [last];
    }
  }

  function Month(y: nat, w: nat, m: nat, rest: string): string {
    FixedWidth(y, w) + "-" + FixedWidth(m, 2) + rest
  }

  lemma MonthLess(y: nat, m: nat, s: string, y': nat, m': nat, t: string, w: nat)
    requires y' < Power10(w) && m < 100 && m' < 100
    requires y < y' || (y == y' && m < m')
    ensures Less(Month(y, w, m, s), Month(y', w, m', t))
  {
    var a, b := FixedWidth(m, 2) + s, FixedWidth(m', 2) + t;
    assert Month(y, w, m, s) == FixedWidth(y, w) + ("-" + a);
    assert Month(y', w, m', t) == FixedWidth(y', w) + ("-" + b);
    if y < y' {
      FixedWidthLess(y, y', w, "-" + a, "-" + b);
    } else {
      Powers();
      FixedWidthLess(m, m', 2, s, t);
      LessUnderPrefix(FixedWidth(y, w), "-" + a, "-" + b);
      LessUnderPrefix("-", a, b);
    }
  }

  const DECEMBER_9999 := MonthStart(9_999, 12)
  const JANUARY_10000 := MonthStart(10_000, 1)

  lemma MonthStartLess(y: nat, m: nat, y': nat, m': nat)
    requires y' < 10_000 || (10_000 <= y && y' < 100_000)
    requires m < 100 && m' < 100 && (y < y' || (y == y' && m < m'))
    ensures Less(MonthStart(y, m), MonthStart(y', m'))
  {
    var w := if y < 10_000 then 4 else 5;
    Powers();
    MonthLess(y, m, "-01T00:00:00Z", y', m', "-01T00:00:00Z", w);
    assert MonthStart(y, m) == Month(y, w, m, "-01T00:00:00Z");
    assert MonthStart(y', m') == Month(y', w, m', "-01T00:00:00Z");
  }

  predicate InDecember9999(s: string) {
    Stamp(s) && YearOf(s) == 9_999 && MonthOf(s) == 12
  }

  /** A stamp spelled out by its year, its month and the rest. */
  lemma StampText(s: string)
    requires Stamp(s)
    ensures s[..4] == FixedWidth(YearOf(s), 4) && YearOf(s) <= 9_999
    ensures |s| >= 7 ==> s == Month(YearOf(s), 4, MonthOf(s), s[7..])
  {
    hide FixedWidth, Natural;
    StampBelowEnd(s);
    FixedWidthOfNatural(s[..4]);
    if |s| >= 7 {
      FixedWidthOfNatural(s[5..7]);
      SevenCharacters(s);
    }
  }

  lemma SevenCharacters(s: string)
    requires |s| >= 7 && s[4] == '-'
    ensures s == s[..4] + "-" + s[5..7] + s[7..]
  {}

  /** A stamp lies before the first instant of the month after its own. */
  lemma StampBeforeNextMonth(s: string)
    requires Stamp(s) && !InDecember9999(s)
    ensures Less(s, MonthStart(NextYear(YearOf(s), MonthOf(s)), NextMonth(MonthOf(s))))
  {
    var y, m := YearOf(s), MonthOf(s);
    StampText(s);
    NextMonthText(y, m);
    if |s| == 4 {
      assert s == s[..4] == FixedWidth(y, 4);
      assert Month(y, 4, 2, "-01T00:00:00Z") == s + "-" + (FixedWidth(2, 2) + "-01T00:00:00Z");
      YearBeforeMonth(s, FixedWidth(2, 2) + "-01T00:00:00Z");
    } else {
      Powers();
      MonthLess(y, m, s[7..], NextYear(y, m), NextMonth(m), "-01T00:00:00Z", 4);
    }
  }

  lemma NextMonthText(y: nat, m: nat)
    requires y < 9_999 || (y == 9_999 && m < 12)
    ensures MonthStart(NextYear(y, m), NextMonth(m)) == Month(NextYear(y, m), 4, NextMonth(m), "-01T00:00:00Z")
  {}

  lemma YearBeforeMonth(s: string, t: string)
    ensures Less(s, s + "-" + t)
  {
    LessUnderPrefix(s, "", "-" + t);
    assert s + "" == s && s + ("-" + t) == s + "-" + t;
  }

  // ----- What a window holds ------------------------------------------------------------

  /** Every usable row of the symbols and the timeframe. */
  function Rows(db: seq<BarRow>, symbols: seq<string>, tf: string): seq<BarRow> {
    Collect(db, symbols, tf, "", "")
  }

  /** The stamps from `lo` (itself included or not) to `hi`. */
  datatype Span = Span(lo: string, inclusive: bool, hi: string) {
    predicate Has(ts: string) {
      (if inclusive then AtMost(lo, ts) else Less(lo, ts)) && AtMost(ts, hi)
    }
  }

  /** `rows` holds the base rows whose stamps lie in `span`, each as often. */
  ghost predicate Counts(rows: multiset<BarRow>, base: multiset<BarRow>, span: Span) {
    forall x :: rows[x] == if span.Has(x.timestamp) then base[x] else 0
  }

  ghost predicate Delivers(rows: seq<BarRow>, base: multiset<BarRow>, span: Span) {
    SortedBy(BarOrder, rows) && Counts(multiset(rows), base, span)
  }

  lemma {:induction false} MatchingCounts(db: seq<BarRow>, symbol: string, tf: string, keep: string -> bool, x: BarRow)
    ensures multiset(Matching(db, symbol, tf, keep))[x]
         == if keep(x.timestamp) then multiset(Matching(db, symbol, tf, _ => true))[x] else 0
  {
    if db != [] { MatchingCounts(db[1..], symbol, tf, keep, x); }
  }

  lemma {:induction false} CollectCounts(db: seq<BarRow>, symbols: seq<string>, tf: string, start: string,
        end: string, x: BarRow)
    ensures multiset(Collect(db, symbols, tf, start, end))[x]
         == if InRange(x.timestamp, start, end) then multiset(Rows(db, symbols, tf))[x] else 0
  {
    if symbols != [] {
      CollectCounts(db, symbols[1..], tf, start, end, x);
      var some, all := (ts: string) => InRange(ts, start, end), (ts: string) => InRange(ts, "", "");
      MatchingCounts(db, symbols[0], tf, some, x);
      MatchingCounts(db, symbols[0], tf, all, x);
      SortPermutes(ByTimestamp, Matching(db, symbols[0], tf, some));
      SortPermutes(ByTimestamp, Matching(db, symbols[0], tf, all));
    }
  }

  lemma {:induction false} AfterBoundCounts(rows: seq<BarRow>, bound: string, x: BarRow)
    ensures multiset(AfterBound(rows, bound))[x]
         == if bound == "" || Less(bound, x.timestamp) then multiset(rows)[x] else 0
  {
    if rows != [] {
      AfterBoundCounts(rows[1..], bound, x);
      assert rows == [rows[0]] + rows[1..];
    }
  }

  lemma BarOrderIsTotal()
    ensures TotalPreorder(BarOrder)
  {
    forall a: BarRow, b: BarRow, c: BarRow
      ensures BarOrder(a, b) || BarOrder(b, a)
      ensures BarOrder(a, b) && BarOrder(b, c) ==> BarOrder(a, c)
    {
      Order(a.timestamp, b.timestamp, c.timestamp);
      Order(a.symbol, b.symbol, c.symbol);
    }
  }

  /** A window delivers the rows between its edges, less those at or before the previous bound. */
  lemma WindowDelivers(db: seq<BarRow>, symbols: seq<string>, tf: string, wstart: string, wend: string, first: bool)
    requires wstart != "" && wend != ""
    ensures Delivers(Window(db, symbols, tf, wstart, wend, if first then "" else wstart),
                     multiset(Rows(db, symbols, tf)), Span(wstart, first, wend))
  {
    var bound := if first then "" else wstart;
    var rows := AfterBound(Collect(db, symbols, tf, wstart, wend), bound);
    BarOrderIsTotal();
    SortSorts(BarOrder, rows);
    SortPermutes(BarOrder, rows);
    var base, span := multiset(Rows(db, symbols, tf)), Span(wstart, first, wend);
    forall x: BarRow
      ensures multiset(rows)[x] == if span.Has(x.timestamp) then base[x] else 0
    {
      CollectCounts(db, symbols, tf, wstart, wend, x);
      AfterBoundCounts(Collect(db, symbols, tf, wstart, wend), bound, x);
      Order(wstart, x.timestamp, wend);
    }
  }

  lemma DeliveredStamp(rows: seq<BarRow>, base: multiset<BarRow>, span: Span, i: nat)
    requires Delivers(rows, base, span) && i < |rows|
    ensures span.Has(rows[i].timestamp)
  {
    assert rows[i] in multiset(rows);
  }

  /** Adjoining deliveries make one. */
  lemma DeliversJoin(a: seq<BarRow>, p: Span, b: seq<BarRow>, hi: string, base: multiset<BarRow>)
    requires Delivers(a, base, p) && Delivers(b, base, Span(p.hi, false, hi))
    requires AtMost(p.lo, p.hi) && AtMost(p.hi, hi)
    ensures Delivers(a + b, base, Span(p.lo, p.inclusive, hi))
  {
    forall i, j | 0 <= i < j < |a + b|
      ensures BarOrder((a + b)[i], (a + b)[j])
    {
      if i < |a| <= j {
        DeliveredStamp(a, base, p, i);
        DeliveredStamp(b, base, Span(p.hi, false, hi), j - |a|);
        Order(a[i].timestamp, p.hi, b[j - |a|].timestamp);
        LessTrichotomy(a[i].timestamp, b[j - |a|].timestamp);
      }
    }
    forall x: BarRow
      ensures multiset(a + b)[x] == if Span(p.lo, p.inclusive, hi).Has(x.timestamp) then base[x] else 0
    {
      Order(p.lo, p.hi, x.timestamp);
      Order(x.timestamp, p.hi, hi);
    }
  }

  /** From a month boundary on, the windows deliver exactly the later rows up to `hi`,
      as long as the year keeps its number of digits. */
  lemma {:induction false} StreamFromDelivers(db: seq<BarRow>, symbols: seq<string>, tf: string, hi: string, y: nat,
        m: nat)
    requires y <= LAST_YEAR && 1 <= m <= 12 && hi != "" && Less(hi, FIVE_DIGIT_END)
    requires y >= 10_000 || (AtMost(hi, DECEMBER_9999) && y <= 9_999 && !(y == 9_999 && m == 12))
    ensures Delivers(StreamFrom(db, symbols, tf, hi, MonthStart(y, m), MonthStart(y, m), y, m),
                     multiset(Rows(db, symbols, tf)), Span(MonthStart(y, m), false, hi))
    decreases (99_990 - y) * 12 - m
  {
    var bound := MonthStart(y, m);
    var y', m' := NextYear(y, m), NextMonth(m);
    var next := MonthStart(y', m');
    var base := multiset(Rows(db, symbols, tf));
    MonthStartLess(y, m, y', m');
    if Less(next, hi) {
      Order(next, hi, FIVE_DIGIT_END);
      LessTrichotomy(next, next);
      Order(bound, next, hi);
      Order(next, hi, DECEMBER_9999);
      WindowDelivers(db, symbols, tf, bound, next, false);
      StreamFromDelivers(db, symbols, tf, hi, y', m');
      DeliversJoin(Window(db, symbols, tf, bound, next, bound), Span(bound, false, next),
                   StreamFrom(db, symbols, tf, hi, next, next, y', m'), hi, base);
    } else {
      WindowDelivers(db, symbols, tf, bound, hi, false);
    }
  }

  // ----- The walk as a whole ---------------------------------------------------------------

  /** A walk whose months run past December 9999 prints its bounds with five digits,
      and "10000-..." sorts among the stamps of the year 1000. */
  predicate CrossesYear10000(lo: string, hi: string) {
    Less(DECEMBER_9999, hi) || InDecember9999(lo)
  }

  /** Where such a walk passes a second time, or before `--start`. */
  predicate Rewalked(ts: string, lo: string) {
    Less(JANUARY_10000, ts) && (if InDecember9999(lo) then Less(ts, lo) else AtMost(ts, DECEMBER_9999))
  }

  ghost predicate Rewalks(db: seq<BarRow>, symbols: seq<string>, tf: string, start: string, end: string) {
    var lo, hi := WalkLow(db, start), WalkHigh(db, end);
    && lo != "" && hi != "" && AtMost(lo, hi) && CrossesYear10000(lo, hi)
    && exists r :: r in Rows(db, symbols, tf) && Rewalked(r.timestamp, lo)
  }

  lemma {:induction false} CollectedRow(db: seq<BarRow>, symbols: seq<string>, tf: string, start: string,
        end: string, r: BarRow)
    requires r in Collect(db, symbols, tf, start, end)
    ensures r in db && Usable(r) && r.timeframe == tf && InRange(r.timestamp, start, end) && r.symbol in symbols
  {
    var keep := (ts: string) => InRange(ts, start, end);
    SortPermutes(ByTimestamp, Matching(db, symbols[0], tf, keep));
    if r in Matching(db, symbols[0], tf, keep) {
      MatchingRow(db, symbols[0], tf, keep, r);
    } else {
      CollectedRow(db, symbols[1..], tf, start, end, r);
    }
  }

  lemma {:induction false} MatchingRow(db: seq<BarRow>, symbol: string, tf: string, keep: string -> bool, r: BarRow)
    requires r in Matching(db, symbol, tf, keep)
    ensures r in db && Usable(r) && r.timeframe == tf && r.symbol == symbol && keep(r.timestamp)
  {
    if r != db[0] || r in Matching(db[1..], symbol, tf, keep) {
      MatchingRow(db[1..], symbol, tf, keep, r);
    }
  }

  /** The clamped bounds select the rows that `--start` and `--end` select. */
  lemma BoundsSelect(db: seq<BarRow>, start: string, end: string, ts: string)
    requires WellFormed(db, start, end) && exists r :: r in db && r.timestamp == ts
    ensures WalkLow(db, start) != "" && WalkHigh(db, end) != ""
    ensures InRange(ts, start, end) <==> Span(WalkLow(db, start), true, WalkHigh(db, end)).Has(ts)
  {
    ExtremesAreRows(db);
    Order(start, MinStamp(db), ts);
    Order(MinStamp(db), start, ts);
    Order(ts, MaxStamp(db), end);
    Order(ts, end, MaxStamp(db));
  }

  lemma HeldTapeDelivers(db: seq<BarRow>, symbols: seq<string>, tf: string, start: string, end: string)
    requires WellFormed(db, start, end)
    ensures Delivers(HeldTape(db, symbols, tf, start, end), multiset(Rows(db, symbols, tf)),
                     Span(WalkLow(db, start), true, WalkHigh(db, end)))
  {
    var base, span := multiset(Rows(db, symbols, tf)), Span(WalkLow(db, start), true, WalkHigh(db, end));
    var rows := Collect(db, symbols, tf, start, end);
    BarOrderIsTotal();
    SortSorts(BarOrder, rows);
    SortPermutes(BarOrder, rows);
    forall x: BarRow
      ensures multiset(rows)[x] == if span.Has(x.timestamp) then base[x] else 0
    {
      CollectCounts(db, symbols, tf, start, end, x);
      if x in base {
        assert x in Rows(db, symbols, tf);
        CollectedRow(db, symbols, tf, "", "", x);
        BoundsSelect(db, start, end, x.timestamp);
      }
    }
  }

  lemma RowsAreAntisymmetric(db: seq<BarRow>, symbols: seq<string>, tf: string)
    requires UniqueRows(db, tf)
    ensures Antisymmetric(BarOrder, multiset(Rows(db, symbols, tf)))
  {
    var rows := Rows(db, symbols, tf);
    forall a, b | a in multiset(rows) && b in multiset(rows) && BarOrder(a, b) && BarOrder(b, a)
      ensures a == b
    {
      assert a in rows && b in rows;
      CollectedRow(db, symbols, tf, "", "", a);
      CollectedRow(db, symbols, tf, "", "", b);
      Order(a.timestamp, b.timestamp, a.timestamp);
      Order(a.symbol, b.symbol, a.symbol);
    }
  }

  /** Two deliveries of the same span are the same rows in the same order. */
  lemma DeliversUnique(a: seq<BarRow>, b: seq<BarRow>, base: multiset<BarRow>, span: Span)
    requires Delivers(a, base, span) && Delivers(b, base, span) && Antisymmetric(BarOrder, base)
    ensures a == b
  {
    forall x: BarRow
      ensures multiset(a)[x] == multiset(b)[x]
    {}
    assert multiset(a) == multiset(b);
    forall x, y | x in multiset(a) && y in multiset(a) && BarOrder(x, y) && BarOrder(y, x)
      ensures x == y
    {
      assert multiset(a)[x] > 0 && multiset(a)[y] > 0;
      assert x in base && y in base;
    }
    SortedUnique(BarOrder, a, b);
  }

  lemma TenThousand(n: nat)
    requires n == 1_000
    ensures FixedWidth(10 * n, 5) == FixedWidth(n, 4) + ['0']
  {}

  lemma FiveDigitText(a: string)
    requires a == "-" + FixedWidth(1, 2) + "-01T00:00:00Z"
    ensures JANUARY_10000 == FixedWidth(10_000, 5) + a
  {
    hide FixedWidth;
  }

  /** "10000-01-01T00:00:00Z" sorts as the year 1000 followed by a digit: before December 9999. */
  lemma YearBoundary(y: nat, m: nat, rest: string)
    requires 1_000 < y <= 9_999
    ensures Less(JANUARY_10000, Month(y, 4, m, rest))
  {
    hide FixedWidth, Less;
    var a, b := "-" + FixedWidth(1, 2) + "-01T00:00:00Z", "-" + FixedWidth(m, 2) + rest;
    Powers();
    TenThousand(1_000);
    FixedWidthLess(1_000, y, 4, ['0'] + a, b);
    Concatenation(FixedWidth(1_000, 4), ['0'], a);
    FiveDigitText(a);
    assert Month(y, 4, m, rest) == FixedWidth(y, 4) + b;
  }

  lemma JanuaryBeforeDecember()
    ensures Less(JANUARY_10000, DECEMBER_9999)
  {
    YearBoundary(9_999, 12, "-01T00:00:00Z");
  }

  lemma DecemberStamp(lo: string)
    requires InDecember9999(lo)
    ensures Less(JANUARY_10000, lo)
  {
    StampText(lo);
    YearBoundary(9_999, 12, lo[7..]);
  }

  lemma EmptySpan(rows: seq<BarRow>, base: multiset<BarRow>, span: Span)
    requires Delivers(rows, base, span) && Less(span.hi, span.lo)
    ensures rows == []
  {
    if rows != [] {
      DeliveredStamp(rows, base, span, 0);
      Order(span.lo, rows[0].timestamp, span.hi);
      LessTrichotomy(span.hi, span.lo);
    }
  }

  /** Within four-digit years the walk delivers the rows from `lo` to `hi`. */
  lemma RegularWalk(db: seq<BarRow>, symbols: seq<string>, tf: string, start: string, end: string)
    requires WellFormed(db, start, end)
    requires WalkLow(db, start) != "" && WalkHigh(db, end) != "" && AtMost(WalkLow(db, start), WalkHigh(db, end))
    requires !CrossesYear10000(WalkLow(db, start), WalkHigh(db, end))
    ensures Delivers(StreamTape(db, symbols, tf, start, end), multiset(Rows(db, symbols, tf)),
                     Span(WalkLow(db, start), true, WalkHigh(db, end)))
  {
    BoundsAreStamps(db, start, end);
    var lo, hi := WalkLow(db, start), WalkHigh(db, end);
    var y', m' := NextYear(YearOf(lo), MonthOf(lo)), NextMonth(MonthOf(lo));
    var next := MonthStart(y', m');
    StampBelowEnd(lo);
    StampBelowEnd(hi);
    StampBeforeNextMonth(lo);
    if Less(next, hi) {
      Order(next, hi, DECEMBER_9999);
      LessTrichotomy(next, next);
      Order(lo, next, hi);
      WindowDelivers(db, symbols, tf, lo, next, true);
      StreamFromDelivers(db, symbols, tf, hi, y', m');
      DeliversJoin(Window(db, symbols, tf, lo, next, ""), Span(lo, true, next),
                   StreamFrom(db, symbols, tf, hi, next, next, y', m'), hi, multiset(Rows(db, symbols, tf)));
    } else {
      WindowDelivers(db, symbols, tf, lo, hi, true);
    }
  }

  /** One window and the rest of a delivery that ends at `edge`. */
  lemma WindowThenRest(db: seq<BarRow>, symbols: seq<string>, tf: string, wstart: string, first: bool,
                       next: string, rest: seq<BarRow>, edge: string)
    requires wstart != "" && next != "" && Less(wstart, next) && AtMost(next, edge)
    requires Delivers(rest, multiset(Rows(db, symbols, tf)), Span(next, false, edge))
    ensures Delivers(Window(db, symbols, tf, wstart, next, if first then "" else wstart) + rest,
                     multiset(Rows(db, symbols, tf)), Span(wstart, first, edge))
  {
    WindowDelivers(db, symbols, tf, wstart, next, first);
    LessTrichotomy(wstart, next);
    DeliversJoin(Window(db, symbols, tf, wstart, next, if first then "" else wstart), Span(wstart, first, next),
                 rest, edge, multiset(Rows(db, symbols, tf)));
  }

  lemma Concatenation<T>(a: seq<T>, b: seq<T>, c: seq<T>)
    ensures (a + b) + c == a + (b + c)
  {}

  /** A window whose end lies before its start is empty. */
  lemma InvertedWindow(db: seq<BarRow>, symbols: seq<string>, tf: string, wstart: string, first: bool, wend: string)
    requires wstart != "" && wend != "" && Less(wend, wstart)
    ensures Window(db, symbols, tf, wstart, wend, if first then "" else wstart) == []
  {
    WindowDelivers(db, symbols, tf, wstart, wend, first);
    EmptySpan(Window(db, symbols, tf, wstart, wend, if first then "" else wstart),
              multiset(Rows(db, symbols, tf)), Span(wstart, first, wend));
  }

  lemma NothingDelivers(base: multiset<BarRow>, edge: string)
    ensures Delivers([], base, Span(edge, false, edge))
  {}

  lemma MonthsBeforeDecember(y: nat, m: nat)
    requires y < 9_999 || (y == 9_999 && m < 12)
    requires 1 <= m <= 12
    ensures Less(MonthStart(y, m), MonthStart(NextYear(y, m), NextMonth(m)))
    ensures AtMost(MonthStart(NextYear(y, m), NextMonth(m)), DECEMBER_9999)
  {
    var y', m' := NextYear(y, m), NextMonth(m);
    MonthStartLess(y, m, y', m');
    if !(y' == 9_999 && m' == 12) { MonthStartLess(y', m', 9_999, 12); }
    LessTrichotomy(MonthStart(y', m'), DECEMBER_9999);
  }

  /** A walk from a four-digit month past December 9999: it delivers up to that month's
      first instant, then goes on from "10000-01-01T00:00:00Z". */
  lemma {:induction false} StreamFromCrosses(db: seq<BarRow>, symbols: seq<string>, tf: string, hi: string, y: nat,
        m: nat)
    returns (head: seq<BarRow>)
    requires y <= 9_999 && 1 <= m <= 12 && Less(hi, FIVE_DIGIT_END) && Less(DECEMBER_9999, hi)
    ensures StreamFrom(db, symbols, tf, hi, MonthStart(y, m), MonthStart(y, m), y, m)
         == head + StreamFrom(db, symbols, tf, hi, JANUARY_10000, JANUARY_10000, 10_000, 1)
    ensures Delivers(head, multiset(Rows(db, symbols, tf)), Span(MonthStart(y, m), false, DECEMBER_9999))
    decreases (9_999 - y) * 12 + 12 - m
  {
    var bound := MonthStart(y, m);
    var y', m' := NextYear(y, m), NextMonth(m);
    var next := MonthStart(y', m');
    if y == 9_999 && m == 12 {
      JanuaryBeforeDecember();
      LessTransitive(next, DECEMBER_9999, hi);
      InvertedWindow(db, symbols, tf, bound, false, next);
      head := [];
      NothingDelivers(multiset(Rows(db, symbols, tf)), bound);
    } else {
      MonthsBeforeDecember(y, m);
      Order(next, DECEMBER_9999, hi);
      var rest := StreamFromCrosses(db, symbols, tf, hi, y', m');
      WindowThenRest(db, symbols, tf, bound, false, next, rest, DECEMBER_9999);
      head := Window(db, symbols, tf, bound, next, bound) + rest;
      Concatenation(Window(db, symbols, tf, bound, next, bound), rest,
                    StreamFrom(db, symbols, tf, hi, JANUARY_10000, JANUARY_10000, 10_000, 1));
    }
  }

  /** The first windows of a crossing walk, when it starts before December 9999. */
  lemma CrossingHead(db: seq<BarRow>, symbols: seq<string>, tf: string, hi: string, lo: string)
    returns (head: seq<BarRow>)
    requires Stamp(lo) && YearOf(lo) <= 9_999 && !InDecember9999(lo)
    requires Less(hi, FIVE_DIGIT_END) && Less(DECEMBER_9999, hi)
    ensures StreamFrom(db, symbols, tf, hi, lo, "", YearOf(lo), MonthOf(lo))
         == head + StreamFrom(db, symbols, tf, hi, JANUARY_10000, JANUARY_10000, 10_000, 1)
    ensures Delivers(head, multiset(Rows(db, symbols, tf)), Span(lo, true, DECEMBER_9999))
    ensures AtMost(lo, DECEMBER_9999)
  {
    var y', m' := NextYear(YearOf(lo), MonthOf(lo)), NextMonth(MonthOf(lo));
    var next := MonthStart(y', m');
    MonthsBeforeDecember(YearOf(lo), MonthOf(lo));
    StampBeforeNextMonth(lo);
    Order(next, DECEMBER_9999, hi);
    Order(lo, next, DECEMBER_9999);
    var rest := StreamFromCrosses(db, symbols, tf, hi, y', m');
    WindowThenRest(db, symbols, tf, lo, true, next, rest, DECEMBER_9999);
    head := Window(db, symbols, tf, lo, next, "") + rest;
    Concatenation(Window(db, symbols, tf, lo, next, ""), rest,
                  StreamFrom(db, symbols, tf, hi, JANUARY_10000, JANUARY_10000, 10_000, 1));
  }

  /** A walk that starts in December 9999 has an empty first window. */
  lemma CrossingStart(db: seq<BarRow>, symbols: seq<string>, tf: string, hi: string, lo: string)
    requires InDecember9999(lo) && AtMost(lo, hi) && Less(hi, FIVE_DIGIT_END)
    ensures StreamFrom(db, symbols, tf, hi, lo, "", YearOf(lo), MonthOf(lo))
         == StreamFrom(db, symbols, tf, hi, JANUARY_10000, JANUARY_10000, 10_000, 1)
  {
    DecemberStamp(lo);
    Order(JANUARY_10000, lo, hi);
    InvertedWindow(db, symbols, tf, lo, true, JANUARY_10000);
  }

  /** A walk that crosses delivers the rows up to the boundary and then every row after
      "10000-01-01T00:00:00Z", which is nearly every row again. */
  lemma CrossingWalk(db: seq<BarRow>, symbols: seq<string>, tf: string, start: string, end: string)
    returns (head: seq<BarRow>, tail: seq<BarRow>)
    requires WellFormed(db, start, end)
    requires WalkLow(db, start) != "" && WalkHigh(db, end) != "" && AtMost(WalkLow(db, start), WalkHigh(db, end))
    requires CrossesYear10000(WalkLow(db, start), WalkHigh(db, end))
    ensures StreamTape(db, symbols, tf, start, end) == head + tail
    ensures Delivers(tail, multiset(Rows(db, symbols, tf)), Span(JANUARY_10000, false, WalkHigh(db, end)))
    ensures if InDecember9999(WalkLow(db, start)) then head == []
            else Delivers(head, multiset(Rows(db, symbols, tf)), Span(WalkLow(db, start), true, DECEMBER_9999))
                 && AtMost(WalkLow(db, start), DECEMBER_9999)
  {
    BoundsAreStamps(db, start, end);
    var lo, hi := WalkLow(db, start), WalkHigh(db, end);
    StampBelowEnd(lo);
    StampBelowEnd(hi);
    tail := StreamFrom(db, symbols, tf, hi, JANUARY_10000, JANUARY_10000, 10_000, 1);
    StreamFromDelivers(db, symbols, tf, hi, 10_000, 1);
    if InDecember9999(lo) {
      head := [];
      CrossingStart(db, symbols, tf, hi, lo);
      assert head + tail == tail;
    } else {
      head := CrossingHead(db, symbols, tf, hi, lo);
    }
  }

  /** `head + tail` is the held tape when `tail` starts after `jan` and no row lies in
      the stretch from `jan` to where `head` ends (`dec`, or `lo` when there is no head). */
  lemma RowsMeetOnce(base: multiset<BarRow>, head: seq<BarRow>, tail: seq<BarRow>, held: seq<BarRow>,
                     lo: string, hi: string, jan: string, dec: string, late: bool)
    requires Delivers(tail, base, Span(jan, false, hi)) && Delivers(held, base, Span(lo, true, hi))
    requires if late then head == [] && Less(jan, lo)
             else Delivers(head, base, Span(lo, true, dec)) && AtMost(lo, dec) && Less(jan, dec) && Less(dec, hi)
    requires Antisymmetric(BarOrder, base) && AtMost(lo, hi)
    requires forall x :: x in base && Less(jan, x.timestamp) ==>
               if late then AtMost(lo, x.timestamp) else Less(dec, x.timestamp)
    ensures head + tail == held
  {
    if late {
      forall x: BarRow
        ensures multiset(tail)[x] == if Span(lo, true, hi).Has(x.timestamp) then base[x] else 0
      {
        Order(jan, lo, x.timestamp);
      }
      assert head + tail == tail;
    } else {
      forall x: BarRow
        ensures multiset(tail)[x] == if Span(dec, false, hi).Has(x.timestamp) then base[x] else 0
      {
        LessTrichotomy(jan, dec);
        Order(jan, dec, x.timestamp);
      }
      LessTrichotomy(dec, hi);
      DeliversJoin(head, Span(lo, true, dec), tail, hi, base);
    }
    DeliversUnique(head + tail, held, base, Span(lo, true, hi));
  }

  /** A row in that stretch is delivered once too often, and no other too seldom. */
  lemma RowsMeetTwice(base: multiset<BarRow>, head: multiset<BarRow>, tail: multiset<BarRow>, held: multiset<BarRow>,
                      lo: string, hi: string, jan: string, dec: string, late: bool, r: BarRow)
    requires Counts(tail, base, Span(jan, false, hi)) && Counts(held, base, Span(lo, true, hi))
    requires if late then head == multiset{} && Less(jan, lo)
             else Counts(head, base, Span(lo, true, dec)) && Less(jan, dec) && Less(dec, hi)
    requires r in base && Less(jan, r.timestamp) && AtMost(lo, hi)
    requires if late then Less(r.timestamp, lo) else AtMost(r.timestamp, dec)
    ensures held <= head + tail && held[r] < (head + tail)[r]
  {
    forall x: BarRow
      ensures held[x] <= (head + tail)[x]
    {
      if late { Order(jan, lo, x.timestamp); } else { Order(jan, dec, x.timestamp); }
      LessTrichotomy(x.timestamp, dec);
    }
    var ts := r.timestamp;
    assert AtMost(ts, hi) by {
      if late { Order(ts, lo, hi); } else { Order(ts, dec, hi); }
      LessTrichotomy(ts, hi);
    }
    assert tail[r] == base[r] > 0;
    assert late ==> held[r] == 0;
  }

  /** A walk that passes over a row again delivers every row of the held tape, and that one once
      more. */
  lemma RewalkedRow(db: seq<BarRow>, symbols: seq<string>, tf: string, start: string, end: string)
    returns (r: BarRow)
    requires WellFormed(db, start, end) && Rewalks(db, symbols, tf, start, end)
    ensures r in Rows(db, symbols, tf) && Rewalked(r.timestamp, WalkLow(db, start))
    ensures var held, stream := multiset(HeldTape(db, symbols, tf, start, end)),
                                multiset(StreamTape(db, symbols, tf, start, end));
            held <= stream && held[r] < stream[r]
  {
    var lo, hi := WalkLow(db, start), WalkHigh(db, end);
    var rows := Rows(db, symbols, tf);
    var head, tail := CrossingWalk(db, symbols, tf, start, end);
    HeldTapeDelivers(db, symbols, tf, start, end);
    r :| r in rows && Rewalked(r.timestamp, lo);
    assert r in multiset(rows);
    JanuaryBeforeDecember();
    if InDecember9999(lo) { DecemberStamp(lo); }
    RowsMeetTwice(multiset(rows), multiset(head), multiset(tail), multiset(HeldTape(db, symbols, tf, start, end)),
          lo, hi, JANUARY_10000, DECEMBER_9999, InDecember9999(lo), r);
  }

  lemma CrossingWalkIsHeld(db: seq<BarRow>, symbols: seq<string>, tf: string, start: string, end: string)
    requires WellFormed(db, start, end) && UniqueRows(db, tf)
    requires WalkLow(db, start) != "" && WalkHigh(db, end) != "" && AtMost(WalkLow(db, start), WalkHigh(db, end))
    requires CrossesYear10000(WalkLow(db, start), WalkHigh(db, end))
    ensures StreamTape(db, symbols, tf, start, end) == HeldTape(db, symbols, tf, start, end)
       <==> !Rewalks(db, symbols, tf, start, end)
  {
    var lo, hi := WalkLow(db, start), WalkHigh(db, end);
    var rows := Rows(db, symbols, tf);
    var base := multiset(rows);
    var late := InDecember9999(lo);
    var held := HeldTape(db, symbols, tf, start, end);
    if Rewalks(db, symbols, tf, start, end) {
      var r := RewalkedRow(db, symbols, tf, start, end);
    } else {
      var head, tail := CrossingWalk(db, symbols, tf, start, end);
      HeldTapeDelivers(db, symbols, tf, start, end);
      forall x: BarRow | x in base && Less(JANUARY_10000, x.timestamp)
        ensures if late then AtMost(lo, x.timestamp) else Less(DECEMBER_9999, x.timestamp)
      {
        assert x in rows;
        assert !Rewalked(x.timestamp, lo);
      }
      JanuaryBeforeDecember();
      if late { DecemberStamp(lo); }
      RowsAreAntisymmetric(db, symbols, tf);
      RowsMeetOnce(base, head, tail, held, lo, hi, JANUARY_10000, DECEMBER_9999, late);
    }
  }

  /** The streaming walk delivers the held tape exactly when it does not pass over a
      row twice or before `--start`, which takes a walk into December 9999. */
  lemma StreamingIsTheHeldTape(db: seq<BarRow>, symbols: seq<string>, tf: string, start: string, end: string)
    requires WellFormed(db, start, end) && UniqueRows(db, tf)
    ensures StreamTape(db, symbols, tf, start, end) == HeldTape(db, symbols, tf, start, end)
       <==> !Rewalks(db, symbols, tf, start, end)
  {
    BoundsAreStamps(db, start, end);
    var lo, hi := WalkLow(db, start), WalkHigh(db, end);
    var held := HeldTape(db, symbols, tf, start, end);
    HeldTapeDelivers(db, symbols, tf, start, end);
    if lo == "" || hi == "" || Less(hi, lo) {
      if held != [] {
        DeliveredStamp(held, multiset(Rows(db, symbols, tf)), Span(lo, true, hi), 0);
        SortPermutes(BarOrder, Collect(db, symbols, tf, start, end));
        CollectedRow(db, symbols, tf, start, end, held[0]);
        BoundsSelect(db, start, end, held[0].timestamp);
        Order(lo, held[0].timestamp, hi);
      }
    } else if CrossesYear10000(lo, hi) {
      CrossingWalkIsHeld(db, symbols, tf, start, end);
    } else {
      RegularWalk(db, symbols, tf, start, end);
      RowsAreAntisymmetric(db, symbols, tf);
      DeliversUnique(StreamTape(db, symbols, tf, start, end), held, multiset(Rows(db, symbols, tf)),
                     Span(lo, true, hi));
    }
  }

  // ----- A walk that does pass over a row twice -----------------------------------------------

  lemma {:induction false} NaturalOfFixedWidth(n: nat, w: nat)
    requires n < Power10(w)
    ensures Digits(FixedWidth(n, w))
    ensures |FixedWidth(n, w)| == w && Natural(FixedWidth(n, w)) == n
  {
    FixedWidthLength(n, w);
    if w != 0 {
      NaturalOfFixedWidth(n / 10, w - 1);
      assert FixedWidth(n, w)[..w - 1] == FixedWidth(n / 10, w - 1);
      assert DigitValue(Digit(n % 10)) == n % 10;
    }
  }

  /** The text of a year, a month and a rest is a stamp of that month. */
  lemma MonthIsStamp(y: nat, m: nat, rest: string)
    requires y <= 9_999 && 1 <= m <= 12
    ensures var s := Month(y, 4, m, rest); Stamp(s) && YearOf(s) == y && MonthOf(s) == m && |s| >= 7 && s[7..] == rest
  {
    var s, year, month := Month(y, 4, m, rest), FixedWidth(y, 4), FixedWidth(m, 2);
    Powers();
    NaturalOfFixedWidth(y, 4);
    NaturalOfFixedWidth(m, 2);
    assert s[..4] == year && s[5..7] == month && s[7..] == rest;
    forall i | 0 <= i < 4
      ensures IsDigit(s[i])
    {
      assert s[i] == year[i] && year[i] in year;
    }
    assert s[5] == month[0] && month[0] in month && s[6] == month[1] && month[1] in month;
  }

  function Sample(ts: string): BarRow {
    BarRow("alpaca", "SPY", "5Min", ts, 1.0, 1.0, 1.0, 1.0, 1.0, "backfill", "")
  }

  lemma SampleRows(early: string, late: string)
    requires Stamp(early) && Stamp(late) && Less(early, late)
    ensures var db := [Sample(early), Sample(late)];
            && WellFormed(db, "", "") && UniqueRows(db, "5Min")
            && WalkLow(db, "") == early && WalkHigh(db, "") == late
            && Sample(early) in Rows(db, ["SPY"], "5Min")
  {
    var db := [Sample(early), Sample(late)];
    LessTrichotomy(early, late);
    assert db[1..] == [Sample(late)];
    assert MinStamp(db[1..]) == late == MaxStamp(db[1..]);
    var keep := (ts: string) => InRange(ts, "", "");
    SortPermutes(ByTimestamp, Matching(db, "SPY", "5Min", keep));
    assert Sample(early) in Matching(db, "SPY", "5Min", keep);
    assert Sample(early) in RealBarsInRange(db, "SPY", "5Min", "", "");
  }

  lemma RewalkedSample(early: string, late: string)
    requires Stamp(early) && Stamp(late) && !InDecember9999(early)
    requires Less(JANUARY_10000, early) && AtMost(early, DECEMBER_9999) && Less(DECEMBER_9999, late)
    ensures var db := [Sample(early), Sample(late)];
            && WellFormed(db, "", "") && UniqueRows(db, "5Min")
            && StreamTape(db, ["SPY"], "5Min", "", "") != HeldTape(db, ["SPY"], "5Min", "", "")
  {
    var db := [Sample(early), Sample(late)];
    Order(early, DECEMBER_9999, late);
    SampleRows(early, late);
    LessTrichotomy(early, late);
    StreamingIsTheHeldTape(db, ["SPY"], "5Min", "", "");
    assert Rewalked(Sample(early).timestamp, early);
    assert Rewalks(db, ["SPY"], "5Min", "", "");
  }

  /** A bar of January 2024 and one of 2 December 9999: the walk delivers the first twice. */
  lemma DecemberTapeIsNotTheHeldTape() returns (db: seq<BarRow>)
    ensures WellFormed(db, "", "") && UniqueRows(db, "5Min")
    ensures StreamTape(db, ["SPY"], "5Min", "", "") != HeldTape(db, ["SPY"], "5Min", "", "")
  {
    var day, rest := "-02T00:00:00Z", "2T00:00:00Z";
    var early, late := Month(2_024, 4, 1, day), Month(9_999, 4, 12, "-0" + rest);
    MonthIsStamp(2_024, 1, day);
    MonthIsStamp(9_999, 12, "-0" + rest);
    YearBoundary(2_024, 1, day);
    Powers();
    MonthLess(2_024, 1, day, 9_999, 12, "-01T00:00:00Z", 4);
    LessTrichotomy(early, DECEMBER_9999);
    LastInstantOfNovember(rest);
    RewalkedSample(early, late);
    db := [Sample(early), Sample(late)];
  }

  lemma LastInstantOfNovember(rest: string)
    requires Less("1T00:00:00Z", rest)
    ensures Less(DECEMBER_9999, Month(9_999, 4, 12, "-0" + rest))
  {
    hide FixedWidth, Less;
    var month := FixedWidth(9_999, 4) + "-" + FixedWidth(12, 2);
    LessUnderPrefix(month + "-0", "1T00:00:00Z", rest);
    Concatenation(month, "-0", "1T00:00:00Z");
    Concatenation(month, "-0", rest);
    assert "-0" + "1T00:00:00Z" == "-01T00:00:00Z";
  }
}
