/** Timestamps as the backtest's clock reads them (core/util.cpp, `iso8601_to_epoch`): six numbers
    by `sscanf`, and seconds since 1970 by `timegm`. */
module Epoch {
  import opened Text
  import opened FlatReader

  // ----- `sscanf` ---------------------------------------------------------------------------------

  function AfterSpaces(s: string): string {
    if s != "" && IsSpace(s[0]) then AfterSpaces(s[1..]) else s
  }

  /** `%d`: the number in front and the text behind it. */
  function ScanInt(s: string): Option<(int, string)> {
    var t := AfterSpaces(s);
    var negative := t != "" && t[0] == '-';
    var body := if negative || (t != "" && t[0] == '+') then t[1..] else t;
    LeadingAreDigits(body);
    var digits := LeadingDigits(body);
    if digits == "" then None
    else
      var n: int := Natural(digits);
      Some((if negative then -n else n, body[|digits|..]))
  }

  /** Numbers with the given characters between them; nothing when one of them is missing. */
  function ScanNumbers(s: string, between: string): (r: Option<seq<int>>)
    ensures r.Some? ==> |r.value| == |between| + 1
    decreases |between|
  {
    match ScanInt(s)
    case None => None
    case Some((n, rest)) =>
      if between == "" then Some([n])
      else if rest == "" || rest[0] != between[0] then None
      else
        match ScanNumbers(rest[1..], between[1..])
        case None => None
        case Some(ns) => Some([n] + ns)
  }

  // ----- `timegm` ---------------------------------------------------------------------------------

  predicate IsLeap(y: int) { y % 4 == 0 && (y % 100 != 0 || y % 400 == 0) }

  /** From the first day of 1970. */
  function DaysBeforeYear(y: int): int {
    365 * (y - 1970) + (y - 1) / 4 - (y - 1) / 100 + (y - 1) / 400 - 477
  }

  function DaysBeforeMonth(y: int, m: nat): int
    requires m < 12
  {
    [0, 31, 59, 90, 120, 151, 181, 212, 243, 273, 304, 334][m] + if m > 1 && IsLeap(y) then 1 else 0
  }

  /** Months beyond the year carry into it; days, hours, minutes and seconds just add up. */
  function SecondsOf(y: int, mo: int, d: int, h: int, mi: int, s: int): int {
    var year, month := y + (mo - 1) / 12, (mo - 1) % 12;
    (((DaysBeforeYear(year) + DaysBeforeMonth(year, month) + d - 1) * 24 + h) * 60 + mi) * 60 + s
  }

  const SEPARATORS := "--T::"

  function Epoch(ts: string): int {
    match ScanNumbers(ts, SEPARATORS)
    case None => 0
    case Some(f) => SecondsOf(f[0], f[1], f[2], f[3], f[4], f[5])
  }

  // ----- Which stamps are read ------------------------------------------------------------------

  lemma {:induction false} AfterSpacesKeeps(s: string, c: char)
    requires c !in s
    ensures c !in AfterSpaces(s)
  {
    if s != "" && IsSpace(s[0]) { AfterSpacesKeeps(s[1..], c); }
  }

  lemma {:induction false} WithoutSeparator(s: string, between: string, c: char)
    requires c !in s && c in between
    ensures ScanNumbers(s, between) == None
    decreases |between|
  {
    AfterSpacesKeeps(s, c);
    match ScanInt(s)
    case None =>
    case Some((n, rest)) =>
      assert c !in rest;
      if rest != "" && rest[0] == between[0] {
        assert c in between[1..];
        WithoutSeparator(rest[1..], between[1..], c);
      }
  }

  /** A stamp without a time reads as the epoch itself. */
  lemma DateOnlyIsZero(ts: string)
    requires 'T' !in ts
    ensures Epoch(ts) == 0
  {
    assert SEPARATORS[2] == 'T';
    WithoutSeparator(ts, SEPARATORS, 'T');
  }

  lemma ScansDigits(s: string, rest: string)
    requires s != "" && Digits(s) && (rest == "" || !IsDigit(rest[0]))
    ensures ScanInt(s + rest) == Some((Natural(s), rest))
  {
    hide Natural;
    assert (s + rest)[0] == s[0];
    assert AfterSpaces(s + rest) == s + rest;
    LeadingOf(s, rest);
  }

  /** Numerals with the separators between them. */
  function Spaced(numerals: seq<string>, between: string, rest: string): string
    requires |numerals| == |between| + 1
    decreases |between|
  {
    if between == "" then numerals[0] + rest
    else numerals[0] + ([between[0]] + Spaced(numerals[1..], between[1..], rest))
  }

  function Naturals(numerals: seq<string>): seq<int>
    requires forall i :: 0 <= i < |numerals| ==> Digits(numerals[i])
  {
    seq(|numerals|, i requires 0 <= i < |numerals| => Natural(numerals[i]))
  }

  /** Six unsigned numerals in their places are read as they stand, whatever follows them. */
  lemma {:induction false} ScansNumerals(numerals: seq<string>, between: string, rest: string)
    requires |numerals| == |between| + 1
    requires forall i :: 0 <= i < |numerals| ==> numerals[i] != "" && Digits(numerals[i])
    requires forall i :: 0 <= i < |between| ==> !IsDigit(between[i])
    requires rest == "" || !IsDigit(rest[0])
    ensures ScanNumbers(Spaced(numerals, between, rest), between) == Some(Naturals(numerals))
    decreases |between|
  {
    hide ScanInt, Natural, Digits, IsDigit;
    if between == "" {
      ScansDigits(numerals[0], rest);
      assert Naturals(numerals) == [Natural(numerals[0])];
    } else {
      var tail := Spaced(numerals[1..], between[1..], rest);
      ScansDigits(numerals[0], [between[0]] + tail);
      assert ([between[0]] + tail)[1..] == tail;
      ScansNumerals(numerals[1..], between[1..], rest);
      assert Naturals(numerals) == [Natural(numerals[0])] + Naturals(numerals[1..]);
    }
  }

  // ----- Every stamp ------------------------------------------------------------------------------------

  predicate Blanks(s: string) { forall i :: 0 <= i < |s| ==> IsSpace(s[i]) }

  /** A numeral in front, after blanks and perhaps a sign, all its digits taken. */
  ghost predicate NumeralInFront(s: string, n: int, rest: string) {
    exists blanks, sign, digits ::
      && s == blanks + (sign + (digits + rest)) && Blanks(blanks) && sign in {"", "+", "-"}
      && digits != "" && Digits(digits) && (rest == "" || !IsDigit(rest[0]))
      && n == if sign == "-" then 0 - Natural(digits) else Natural(digits)
  }

  /** The numbers that stand in front with the separators between them. */
  ghost predicate NumbersInFront(s: string, between: string, ns: seq<int>)
    decreases |between|
  {
    && |ns| == |between| + 1
    && exists rest :: NumeralInFront(s, ns[0], rest)
         && (between != "" ==> rest != "" && rest[0] == between[0] && NumbersInFront(rest[1..], between[1..], ns[1..]))
  }

  lemma {:induction false} SkippedBlanks(s: string) returns (blanks: string)
    ensures Blanks(blanks) && s == blanks + AfterSpaces(s) && (AfterSpaces(s) == "" || !IsSpace(AfterSpaces(s)[0]))
  {
    blanks := "";
    if s != "" && IsSpace(s[0]) {
      var more := SkippedBlanks(s[1..]);
      blanks := [s[0]] + more;
      assert s == [s[0]] + s[1..];
    }
  }

  lemma {:induction false} SkipsBlanks(blanks: string, s: string)
    requires Blanks(blanks) && (s == "" || !IsSpace(s[0]))
    ensures AfterSpaces(blanks + s) == s
  {
    if blanks == "" {
      assert blanks + s == s;
    } else {
      assert (blanks + s)[1..] == blanks[1..] + s;
      SkipsBlanks(blanks[1..], s);
    }
  }

  lemma {:induction false} LeadingAreAll(s: string)
    ensures var d := LeadingDigits(s);
            Digits(d) && |d| <= |s| && s == d + s[|d|..] && (|d| == |s| || !IsDigit(s[|d|]))
  {
    if s != "" && IsDigit(s[0]) {
      LeadingAreAll(s[1..]);
      assert s == [s[0]] + s[1..];
    }
  }

  lemma ScanFinds(s: string)
    ensures ScanInt(s).Some? ==> NumeralInFront(s, ScanInt(s).value.0, ScanInt(s).value.1)
  {
    hide Natural, IsDigit, IsSpace;
    var blanks := SkippedBlanks(s);
    var t := AfterSpaces(s);
    var sign := if t != "" && (t[0] == '-' || t[0] == '+') then [t[0]] else "";
    var body := t[|sign|..];
    LeadingAreAll(body);
    var digits := LeadingDigits(body);
    assert t == sign + body;
    if digits != "" {
      assert s == blanks + (sign + (digits + body[|digits|..]));
    }
  }

  lemma FindsScan(s: string, n: int, rest: string)
    requires NumeralInFront(s, n, rest)
    ensures ScanInt(s) == Some((n, rest))
  {
    hide Natural;
    var blanks, sign, digits :|
      && s == blanks + (sign + (digits + rest)) && Blanks(blanks) && sign in {"", "+", "-"}
      && digits != "" && Digits(digits) && (rest == "" || !IsDigit(rest[0]))
      && n == if sign == "-" then 0 - Natural(digits) else Natural(digits);
    var body := digits + rest;
    var t := sign + body;
    assert body[0] == digits[0] && (sign == "" ==> t == body) && (sign != "" ==> t[0] == sign[0] && t[1..] == body);
    SkipsBlanks(blanks, t);
    LeadingOf(digits, rest);
    assert body[|digits|..] == rest;
  }

  lemma {:induction false} ScanIsReading(s: string, between: string)
    ensures ScanNumbers(s, between).Some? ==> NumbersInFront(s, between, ScanNumbers(s, between).value)
    ensures forall ns :: NumbersInFront(s, between, ns) ==> ScanNumbers(s, between) == Some(ns)
    decreases |between|
  {
    hide ScanInt, NumeralInFront;
    ScanFinds(s);
    if ScanInt(s).Some? && between != "" {
      var rest := ScanInt(s).value.1;
      if rest != "" && rest[0] == between[0] {
        ScanIsReading(rest[1..], between[1..]);
        if ScanNumbers(s, between).Some? {
          assert ScanNumbers(s, between).value[1..] == ScanNumbers(rest[1..], between[1..]).value;
        }
      }
    }
    forall ns | NumbersInFront(s, between, ns)
      ensures ScanNumbers(s, between) == Some(ns)
    {
      var rest :| NumeralInFront(s, ns[0], rest)
        && (between != "" ==> rest != "" && rest[0] == between[0] && NumbersInFront(rest[1..], between[1..], ns[1..]));
      FindsScan(s, ns[0], rest);
      if between == "" {
        assert ns == [ns[0]];
      } else {
        ScanIsReading(rest[1..], between[1..]);
        assert [ns[0]] + ns[1..] == ns;
      }
    }
  }

  // ----- The calendar -------------------------------------------------------------------------------------

  function MonthLength(y: int, m: int): int {
    if m == 2 then (if (y % 4 == 0 && y % 100 != 0) || y % 400 == 0 then 29 else 28)
    else if m == 4 || m == 6 || m == 9 || m == 11 then 30 else 31
  }

  lemma CenturyStep(y: int)
    ensures y / 4 - (y - 1) / 4 == (if y % 4 == 0 then 1 else 0)
    ensures y / 100 - (y - 1) / 100 == (if y % 100 == 0 then 1 else 0)
    ensures y / 400 - (y - 1) / 400 == (if y % 400 == 0 then 1 else 0)
  {}

  lemma MultipleOf400(y: int)
    ensures y % 400 == 0 ==> y % 100 == 0 && y % 4 == 0
    ensures y % 100 == 0 ==> y % 4 == 0
  {}

  lemma YearsFollow(y: int)
    ensures DaysBeforeYear(y + 1) == DaysBeforeYear(y) + if MonthLength(y, 2) == 29 then 366 else 365
  {
    CenturyStep(y);
    MultipleOf400(y);
  }

  lemma LeapIsLong(y: int)
    ensures IsLeap(y) <==> MonthLength(y, 2) == 29
  {
    MultipleOf400(y);
  }

  lemma MonthsFollow(y: int, m: nat)
    requires m < 11
    ensures DaysBeforeMonth(y, m + 1) == DaysBeforeMonth(y, m) + MonthLength(y, m + 1)
    ensures DaysBeforeMonth(y, 0) == 0 && DaysBeforeMonth(y, 11) + 31 == if MonthLength(y, 2) == 29 then 366 else 365
  {
    LeapIsLong(y);
  }

  /** Seconds count from 1970; days, hours, minutes and seconds add up; months follow one another at their
      lengths, the twelfth by the next year's first, and any twelve of them make a year. */
  lemma SecondsFollowTheCalendar(y: int, mo: int, d: int, h: int, mi: int, s: int)
    ensures SecondsOf(1970, 1, 1, 0, 0, 0) == 0
    ensures SecondsOf(y, mo, d, h, mi, s) == SecondsOf(y, mo, 1, 0, 0, 0) + 86400 * (d - 1) + 3600 * h + 60 * mi + s
    ensures SecondsOf(y, mo + 12, 1, 0, 0, 0) == SecondsOf(y + 1, mo, 1, 0, 0, 0)
    ensures 1 <= mo <= 12 ==>
              SecondsOf(y, mo + 1, 1, 0, 0, 0) == SecondsOf(y, mo, 1, 0, 0, 0) + 86400 * MonthLength(y, mo)
  {
    hide DaysBeforeYear, DaysBeforeMonth, MonthLength;
    Origin();
    if 1 <= mo < 12 {
      MonthsFollow(y, mo - 1);
    } else if mo == 12 {
      MonthsFollow(y, 0);
      MonthsFollow(y + 1, 0);
      YearsFollow(y);
      December(y);
    }
  }

  lemma Origin()
    ensures DaysBeforeYear(1970) == 0 && DaysBeforeMonth(1970, 0) == 0
  {}

  lemma December(y: int)
    ensures MonthLength(y, 12) == 31
  {}
}
