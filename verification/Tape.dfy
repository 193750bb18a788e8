/** The backtest tape (core/backtest_main.cpp): the month-by-month walk over the
    database and the held, fully sorted tape it has to reproduce. */
module Tape {
  import opened Text
  import opened Sorting

  datatype BarRow = BarRow(
    venue: string, symbol: string, timeframe: string, timestamp: string,
    open: real, high: real, low: real, close: real, volume: real,
    source: string, volumeSource: string)

  // ----- Reading the database ----------------------------------------------------

  /** The provenance filter of the range read. */
  predicate Usable(r: BarRow) {
    (r.source == "real_feed" || r.source == "backfill") && r.volumeSource != "fabricated_zeroed"
  }

  /** Inclusive at both ends; an empty bound is no bound. */
  predicate InRange(ts: string, start: string, end: string) {
    (start == "" || AtMost(start, ts)) && (end == "" || AtMost(ts, end))
  }

  predicate ByTimestamp(a: BarRow, b: BarRow) {
    AtMost(a.timestamp, b.timestamp)
  }

  /** The defined order of the tape: timestamp, then symbol. */
  predicate BarOrder(a: BarRow, b: BarRow) {
    if a.timestamp != b.timestamp then Less(a.timestamp, b.timestamp)
    else AtMost(a.symbol, b.symbol)
  }

  function Matching(db: seq<BarRow>, symbol: string, tf: string, keep: string -> bool): seq<BarRow> {
    if db == [] then []
    else (if db[0].symbol == symbol && db[0].timeframe == tf && Usable(db[0]) && keep(db[0].timestamp)
          then [db[0]] else []) + Matching(db[1..], symbol, tf, keep)
  }

  function RealBarsInRange(db: seq<BarRow>, symbol: string, tf: string, start: string, end: string): seq<BarRow> {
    Sort(ByTimestamp, Matching(db, symbol, tf, ts => InRange(ts, start, end)))
  }

  /** A range read comes in the order of time. */
  lemma RangeReadIsOrdered(db: seq<BarRow>, symbol: string, tf: string, start: string, end: string)
    ensures var rows := RealBarsInRange(db, symbol, tf, start, end);
            forall i, j :: 0 <= i < j < |rows| ==> AtMost(rows[i].timestamp, rows[j].timestamp)
  {
    forall a: BarRow, b: BarRow, c: BarRow
      ensures ByTimestamp(a, b) || ByTimestamp(b, a)
      ensures ByTimestamp(a, b) && ByTimestamp(b, c) ==> ByTimestamp(a, c)
    {
      Order(a.timestamp, b.timestamp, c.timestamp);
    }
    SortSorts(ByTimestamp, Matching(db, symbol, tf, ts => InRange(ts, start, end)));
    var rows := RealBarsInRange(db, symbol, tf, start, end);
    assert forall i, j :: 0 <= i < j < |rows| ==> ByTimestamp(rows[i], rows[j]);
  }

  // ----- Month arithmetic ----------------------------------------------------------

  /** The last `width` decimal digits of `n`, as `%0<width>d` prints a number that fits. */
  function FixedWidth(n: nat, width: nat): string {
    if width == 0 then "" else FixedWidth(n / 10, width - 1) + [Digit(n % 10)]
  }

  const LAST_YEAR := 99_989

  /** `%04d-%02d-01T00:00:00Z`: four digits at least, five from the year 10000 on. */
  function MonthStart(y: nat, m: nat): string {
    FixedWidth(y, if y < 10_000 then 4 else 5) + "-" + FixedWidth(m, 2) + "-01T00:00:00Z"
  }

  function NextYear(y: nat, m: nat): nat { if m == 12 then y + 1 else y }
  function NextMonth(m: nat): nat { if m == 12 then 1 else m + 1 }

  /** A stamp in the style of section 5.1 of RFC 3339: it begins with a four-digit
      year, and unless it is the bare year, goes on with a month from 01 to 12. */
  predicate Stamp(s: string) {
    && |s| >= 4
    && (forall i :: 0 <= i < 4 ==> IsDigit(s[i]))
    && (|s| == 4 || (|s| >= 7 && s[4] == '-' && IsDigit(s[5]) && IsDigit(s[6])
                     && 1 <= Natural(s[5..7]) <= 12))
  }

  function YearOf(s: string): nat
    requires Stamp(s)
  {
    Natural(s[..4])
  }

  function MonthOf(s: string): nat
    requires Stamp(s)
  {
    if |s| >= 7 then Natural(s[5..7]) else 1
  }

  // ----- The two walks ---------------------------------------------------------------

  function Collect(db: seq<BarRow>, symbols: seq<string>, tf: string, start: string, end: string): seq<BarRow> {
    if symbols == [] then []
    else RealBarsInRange(db, symbols[0], tf, start, end) + Collect(db, symbols[1..], tf, start, end)
  }

  function HeldTape(db: seq<BarRow>, symbols: seq<string>, tf: string, start: string, end: string): seq<BarRow> {
    Sort(BarOrder, Collect(db, symbols, tf, start, end))
  }

  /** Rows at or before the previous bound were delivered by the previous window. */
  function AfterBound(rows: seq<BarRow>, bound: string): seq<BarRow> {
    if rows == [] then []
    else (if bound != "" && AtMost(rows[0].timestamp, bound) then [] else [rows[0]])
         + AfterBound(rows[1..], bound)
  }

  function Window(db: seq<BarRow>, symbols: seq<string>, tf: string,
                  wstart: string, wend: string, bound: string): seq<BarRow> {
    Sort(BarOrder, AfterBound(Collect(db, symbols, tf, wstart, wend), bound))
  }

  /** No stamp with a four-digit year reaches this string, so a walk that ends at
      such a stamp ends before it. */
  const FIVE_DIGIT_END := MonthStart(99_990, 1)

  /** The rest of the walk from the window that starts at `wstart` in month `m` of year `y`. */
  function StreamFrom(db: seq<BarRow>, symbols: seq<string>, tf: string, hi: string,
                      wstart: string, bound: string, y: nat, m: nat): seq<BarRow>
    requires y <= LAST_YEAR && 1 <= m <= 12 && Less(hi, FIVE_DIGIT_END)
    decreases (99_990 - y) * 12 - m
  {
    var next := MonthStart(NextYear(y, m), NextMonth(m));
    if Less(next, hi) then
      LessTrichotomy(next, hi);
      Window(db, symbols, tf, wstart, next, bound)
      + StreamFrom(db, symbols, tf, hi, next, next, NextYear(y, m), NextMonth(m))
    else
      Window(db, symbols, tf, wstart, hi, bound)
  }

  function MinStamp(db: seq<BarRow>): string {
    if db == [] then ""
    else if |db| == 1 then db[0].timestamp
    else var rest := MinStamp(db[1..]);
         if Less(db[0].timestamp, rest) then db[0].timestamp else rest
  }

  function MaxStamp(db: seq<BarRow>): string {
    if db == [] then ""
    else if |db| == 1 then db[0].timestamp
    else var rest := MaxStamp(db[1..]);
         if Less(rest, db[0].timestamp) then db[0].timestamp else rest
  }

  /** The database's own span, clamped to `--start` and `--end`. */
  function WalkLow(db: seq<BarRow>, start: string): string {
    var lo := MinStamp(db);
    if start != "" && (lo == "" || Less(lo, start)) then start else lo
  }

  function WalkHigh(db: seq<BarRow>, end: string): string {
    var hi := MaxStamp(db);
    if end != "" && (hi == "" || Less(end, hi)) then end else hi
  }

  ghost predicate WellFormed(db: seq<BarRow>, start: string, end: string) {
    && (forall r :: r in db ==> Stamp(r.timestamp))
    && (start == "" || Stamp(start)) && (end == "" || Stamp(end))
  }

  /** Unique rows: timestamp and symbol determine a usable row of the timeframe. */
  ghost predicate UniqueRows(db: seq<BarRow>, tf: string) {
    forall a, b ::
      (a in db && b in db && Usable(a) && Usable(b) && a.timeframe == b.timeframe == tf
       && a.timestamp == b.timestamp && a.symbol == b.symbol)
      ==> a == b
  }

  lemma {:induction false} FixedWidthLength(n: nat, w: nat)
    ensures |FixedWidth(n, w)| == w
    ensures Digits(FixedWidth(n, w))
  {
    if w != 0 { FixedWidthLength(n / 10, w - 1); }
  }

  /** One step of the comparison, at position `i` of two strings equal before it. */
  lemma LessAt(a: string, b: string, i: nat)
    requires i <= |a| && i <= |b|
    ensures a[..i] == b[..i] && i < |b| && (i == |a| || a[i] < b[i]) ==> Less(a, b)
  {
    if a[..i] == b[..i] && i < |b| && (i == |a| || a[i] < b[i]) {
      assert a == a[..i] + a[i..] && b == b[..i] + b[i..];
      LessUnderPrefix(a[..i], a[i..], b[i..]);
    }
  }

  lemma {:induction false} NaturalBound(s: string)
    requires Digits(s)
    ensures Natural(s) < Power10(|s|)
  {
    if s != "" {
      NaturalBound(s[..|s| - 1]);
      assert Natural(s) < 10 * (Natural(s[..|s| - 1]) + 1);
    }
  }

  lemma Powers()
    ensures Power10(2) == 100 && Power10(4) == 10_000 && Power10(5) == 100_000
  {
    assert Power10(2) == 10 * Power10(1);
    assert Power10(4) == 10 * Power10(3);
  }

  lemma WidthStep(n: nat, q: nat, d: nat, w: nat)
    requires n == 10 * q + d && d < 10
    ensures FixedWidth(n, w + 1) == FixedWidth(q, w) + [Digit(d)]
  {
    assert n / 10 == q && n % 10 == d;
  }

  lemma FiveDigits()
    ensures FIVE_DIGIT_END[..5] == "99990"
  {
    WidthStep(99_990, 9_999, 0, 4);
    WidthStep(9_999, 999, 9, 3);
    WidthStep(999, 99, 9, 2);
    WidthStep(99, 9, 9, 1);
    WidthStep(9, 0, 9, 0);
    hide FixedWidth;
    assert Digit(0) == '0' && Digit(9) == '9';
    assert FixedWidth(0, 0) == "" by { NoWidth(0); }
    assert FixedWidth(99_990, 5) == "99990";
  }

  lemma NoWidth(n: nat)
    ensures FixedWidth(n, 0) == ""
  {}

  /** A stamp sorts before the year 99990: its first four digits are at most nines. */
  lemma StampBelowEnd(s: string)
    requires Stamp(s)
    ensures Less(s, FIVE_DIGIT_END) && YearOf(s) <= 9_999
  {
    hide Natural, FixedWidth, Less;
    FiveDigits();
    BelowNines(s, FIVE_DIGIT_END);
    NaturalBound(s[..4]);
    Powers();
  }

  /** Four digits, or more text after them, sort before four nines and another character. */
  lemma BelowNines(s: string, e: string)
    requires |s| >= 4 && Digits(s[..4]) && |e| >= 5 && e[..5] == "99990"
    requires |s| == 4 || s[4] < '0'
    ensures Less(s, e)
  {
    hide Less;
    assert forall i :: 0 <= i < 5 ==> e[i] == e[..5][i];
    assert forall i :: 0 <= i < 4 ==> s[i] == s[..4][i];
    var i := 0;
    while i < 4 && s[i] == '9'
      invariant i <= 4 && s[..i] == e[..i]
    {
      i := i + 1;
    }
    LessAt(s, e, i);
  }

  lemma {:induction false} ExtremesAreRows(db: seq<BarRow>)
    requires db != []
    ensures exists r :: r in db && r.timestamp == MinStamp(db)
    ensures exists r :: r in db && r.timestamp == MaxStamp(db)
    ensures forall r :: r in db ==> AtMost(MinStamp(db), r.timestamp) && AtMost(r.timestamp, MaxStamp(db))
  {
    assert db[0] in db;
    if |db| > 1 {
      ExtremesAreRows(db[1..]);
    }
    forall r | r in db
      ensures AtMost(MinStamp(db), r.timestamp) && AtMost(r.timestamp, MaxStamp(db))
    {
      LessTrichotomy(r.timestamp, r.timestamp);
      if |db| > 1 {
        var first, lo, hi := db[0].timestamp, MinStamp(db[1..]), MaxStamp(db[1..]);
        Order(first, lo, r.timestamp);
        Order(lo, first, r.timestamp);
        Order(r.timestamp, hi, first);
        Order(r.timestamp, first, hi);
      }
    }
  }

  /** Well-formed stamps give the walk a month to start from and an end its months reach. */
  lemma BoundsAreStamps(db: seq<BarRow>, start: string, end: string)
    requires WellFormed(db, start, end)
    ensures WalkLow(db, start) == "" || Stamp(WalkLow(db, start))
    ensures WalkHigh(db, end) == "" || Stamp(WalkHigh(db, end))
  {
    if db != [] { ExtremesAreRows(db); }
  }

  /** The walk's bounds are the database's own, or the ones asked for where those lie further in. */
  lemma BoundsAreClamped(db: seq<BarRow>, start: string, end: string)
    requires db != [] && forall r :: r in db ==> r.timestamp != ""
    ensures var lo, hi := WalkLow(db, start), WalkHigh(db, end);
            && (lo == start || exists r :: r in db && lo == r.timestamp) && (start != "" ==> AtMost(start, lo))
            && (hi == end || exists r :: r in db && hi == r.timestamp) && (end != "" ==> AtMost(hi, end))
            && (exists r :: r in db && AtMost(r.timestamp, lo)) && (exists r :: r in db && AtMost(hi, r.timestamp))
            && (start != "" && (forall r :: r in db ==> AtMost(r.timestamp, start)) ==> lo == start)
            && (end != "" && (forall r :: r in db ==> AtMost(end, r.timestamp)) ==> hi == end)
  {
    ExtremesAreRows(db);
    var first :| first in db && first.timestamp == MinStamp(db);
    var last :| last in db && last.timestamp == MaxStamp(db);
    Order(start, first.timestamp, start);
    Order(end, last.timestamp, end);
    Order(first.timestamp, start, first.timestamp);
    Order(last.timestamp, end, last.timestamp);
  }

  /** The streaming walk: the rows in the order they are delivered. */
  function StreamTape(db: seq<BarRow>, symbols: seq<string>, tf: string, start: string, end: string): seq<BarRow>
    requires WellFormed(db, start, end)
  {
    var lo := WalkLow(db, start);
    var hi := WalkHigh(db, end);
    if lo == "" || hi == "" || Less(hi, lo) then []
    else
      BoundsAreStamps(db, start, end);
      StampBelowEnd(lo);
      StampBelowEnd(hi);
      StreamFrom(db, symbols, tf, hi, lo, "", YearOf(lo), MonthOf(lo))
  }
}
