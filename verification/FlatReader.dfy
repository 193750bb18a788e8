/** The engine's flat JSON reader (core/bridge_client.cpp): it looks for the first `"key"` in
    the text, wherever that stands. */
module FlatReader {
  import opened Numbers
  import opened Text
  import opened JsonText

  predicate StartsWith(s: string, prefix: string) {
    |prefix| <= |s| && s[..|prefix|] == prefix
  }

  function SkipSpaces(text: string, p: nat): nat
    decreases |text| - p
  {
    if p < |text| && IsSpace(text[p]) then SkipSpaces(text, p + 1) else p
  }

  function Needle(key: string): string { "\"" + key + "\"" }

  function ValueStart(text: string, key: string): Option<nat> {
    match Find(text, Needle(key), 0)
    case None => None
    case Some(p) =>
      match FindChar(text, ':', p + |key| + 2)
      case None => None
      case Some(q) => Some(SkipSpaces(text, q + 1))
  }

  /** `find_value_start`, with its loop over the blanks. */
  method FindValueStart(text: string, key: string) returns (r: Option<nat>)
    ensures r == ValueStart(text, key)
  {
    var found := Find(text, Needle(key), 0);
    if found.None? {
      return None;
    }
    var colon := FindChar(text, ':', found.value + |key| + 2);
    if colon.None? {
      return None;
    }
    var p := colon.value + 1;
    while p < |text| && IsSpace(text[p])
      invariant SkipSpaces(text, p) == SkipSpaces(text, colon.value + 1)
      decreases |text| - p
    {
      p := p + 1;
    }
    r := Some(p);
  }

  function GetBool(text: string, key: string, default: bool): bool {
    match ValueStart(text, key)
    case None => default
    case Some(p) =>
      if p >= |text| then default
      else if StartsWith(text[p..], "true") then true
      else if StartsWith(text[p..], "false") then false
      else if text[p] == '1' then true
      else if text[p] == '0' then false
      else default
  }

  function GetString(text: string, key: string, default: string): string {
    match ValueStart(text, key)
    case None => default
    case Some(p) =>
      if p >= |text| || text[p] != '"' then default
      else
        match FindChar(text, '"', p + 1)
        case None => default
        case Some(end) => text[p + 1..end]
  }

  /** What `stod` can give: a number, or one of the values that are none. */
  datatype Double = Real(x: real) | Infinite(negative: bool) | NotANumber

  function GetNumber(text: string, key: string, default: Double): Double {
    match ValueStart(text, key)
    case None => default
    case Some(p) =>
      if p > |text| then default
      else match ReadNumber(text[p..]) case None => default case Some(x) => x
  }

  // ----- Numbers, as `stod` reads them -------------------------------------------------

  function Power(n: nat): real { if n == 0 then 1.0 else 10.0 * Power(n - 1) }

  lemma PowerPositive(n: nat)
    ensures Power(n) > 0.0
  {}

  function Scaled(x: real, exponent: int): real {
    if exponent >= 0 then x * Power(exponent) else PowerPositive(-exponent); x / Power(-exponent)
  }

  function Combine(negative: bool, whole: string, fraction: string, exponent: int): real
    requires Digits(whole + fraction)
  {
    var magnitude := Scaled(Natural(whole + fraction) as real, exponent - |fraction|);
    if negative then -magnitude else magnitude
  }

  /** The power behind its mark, in either case. */
  function ReadExponent(s: string, mark: char): int
    requires mark == 'e' || mark == 'p'
  {
    if s != "" && (s[0] == mark || s[0] as int == mark as int - 32) then
      var signed := s[1..];
      var negative := signed != "" && signed[0] == '-';
      var body := if negative || (signed != "" && signed[0] == '+') then signed[1..] else signed;
      LeadingAreDigits(body);
      var n: int := Natural(LeadingDigits(body));
      if negative then -n else n
    else 0
  }

  // Hexadecimal numerals: "0x", digits with or without a point, and a power of two.

  predicate IsHex(c: char) { IsDigit(c) || 'a' <= c <= 'f' || 'A' <= c <= 'F' }

  predicate AllHex(s: string) { forall i :: 0 <= i < |s| ==> IsHex(s[i]) }

  function HexValue(c: char): nat
    requires IsHex(c)
  {
    if IsDigit(c) then DigitValue(c) else if c >= 'a' then c as int - 'a' as int + 10 else c as int - 'A' as int + 10
  }

  function LeadingHex(s: string): (r: string)
    ensures |r| <= |s| && AllHex(r)
  {
    if s != "" && IsHex(s[0]) then [s[0]] + LeadingHex(s[1..]) else ""
  }

  function Hexadecimal(s: string): nat
    requires AllHex(s)
  {
    if s == "" then 0 else 16 * Hexadecimal(s[..|s| - 1]) + HexValue(s[|s| - 1])
  }

  function Doubled(x: real, exponent: int): real {
    if exponent >= 0 then x * Power2(exponent) as real
    else Power2Grows(0, -exponent); x / Power2(-exponent) as real
  }

  /** The numeral behind "0x", when there is a digit. */
  function ReadHex(negative: bool, s: string): Option<real> {
    var whole := LeadingHex(s);
    var tail := s[|whole|..];
    if tail != "" && tail[0] == '.' then
      var fraction := LeadingHex(tail[1..]);
      ReadHexMantissa(negative, whole, fraction, tail[1 + |fraction|..])
    else ReadHexMantissa(negative, whole, "", tail)
  }

  function ReadHexMantissa(negative: bool, whole: string, fraction: string, tail: string): Option<real>
    requires AllHex(whole) && AllHex(fraction)
  {
    if whole == "" && fraction == "" then None
    else
      var magnitude := Doubled(Hexadecimal(whole + fraction) as real, ReadExponent(tail, 'p') - 4 * |fraction|);
      Some(if negative then -magnitude else magnitude)
  }

  /** The text starts with the word, in letters of either case. */
  predicate StartsWithWord(s: string, word: string) {
    |s| >= |word| && forall i :: 0 <= i < |word| ==> s[i] == word[i] || s[i] as int == word[i] as int - 32
  }

  predicate IsHexText(s: string) { |s| >= 2 && s[0] == '0' && (s[1] == 'x' || s[1] == 'X') }

  /** The number at the front: without a digit behind it, "0x" is a zero. */
  function ReadFinite(negative: bool, s: string): Option<real> {
    if IsHexText(s) && ReadHex(negative, s[2..]).Some? then ReadHex(negative, s[2..]) else ReadUnsigned(negative, s)
  }

  /** A leading numeral, infinity or not-a-number; nothing when none of them comes first, or when the
      number is beyond a double and `stod` throws. */
  function ReadNumber(s: string): Option<Double> {
    var negative := s != "" && s[0] == '-';
    var body := if negative || (s != "" && s[0] == '+') then s[1..] else s;
    if StartsWithWord(body, "nan") then Some(NotANumber)
    else if StartsWithWord(body, "inf") then Some(Infinite(negative))
    else
      match ReadFinite(negative, body)
      case None => None
      case Some(x) => if BeyondDouble(x) then None else Some(Real(x))
  }

  function ReadUnsigned(negative: bool, s: string): Option<real> {
    LeadingAreDigits(s);
    var whole := LeadingDigits(s);
    var tail := s[|whole|..];
    if tail != "" && tail[0] == '.' then
      LeadingAreDigits(tail[1..]);
      var fraction := LeadingDigits(tail[1..]);
      ReadMantissa(negative, whole, fraction, tail[1 + |fraction|..])
    else ReadMantissa(negative, whole, "", tail)
  }

  function ReadMantissa(negative: bool, whole: string, fraction: string, tail: string): Option<real>
    requires Digits(whole) && Digits(fraction)
  {
    if whole == "" && fraction == "" then None
    else Some(Combine(negative, whole, fraction, ReadExponent(tail, 'e')))
  }

  function NumberValue(n: Number): real
    requires WellFormedNumber(n)
  {
    Combine(n.negative, n.whole, n.fraction, ExponentValue(n.exponent))
  }

  function ExponentValue(e: Option<Exponent>): int
    requires e.Some? ==> Digits(e.value.digits)
  {
    match e
    case None => 0
    case Some(x) =>
      var n: int := Natural(x.digits);
      if x.negative then -n else n
  }
}
