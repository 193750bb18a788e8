/** Which number `stod` finds at the front of a text, for every form it takes: decimal and hexadecimal
    numerals, infinities and not-a-number (core/bridge_client.cpp, C++17 section 24.3.4). */
module FlatNumerals {
  import opened Numbers
  import opened Text
  import opened FlatReader

  /** `v` is the integer `n` moved `shift` places in the given base, up to the sign. */
  function Places(base: nat, k: nat): nat { if k == 0 then 1 else base * Places(base, k - 1) }

  predicate Denotes(v: real, negative: bool, n: nat, base: nat, shift: int) {
    var m := if negative then -v else v;
    if shift >= 0 then m == n as real * Places(base, shift) as real
    else m * Places(base, -shift) as real == n as real
  }

  lemma {:induction false} TenPlaces(k: nat)
    ensures Power(k) == Places(10, k) as real && Places(10, k) > 0
  {
    if k > 0 { TenPlaces(k - 1); }
  }

  lemma {:induction false} TwoPlaces(k: nat)
    ensures Power2(k) == Places(2, k) && Places(2, k) > 0
  {
    if k > 0 { TwoPlaces(k - 1); }
  }

  lemma DivideBack(x: real, y: real)
    requires y > 0.0
    ensures (x / y) * y == x
  {}

  lemma CombineDenotes(negative: bool, whole: string, fraction: string, exponent: int)
    requires Digits(whole + fraction)
    ensures Denotes(Combine(negative, whole, fraction, exponent), negative, Natural(whole + fraction), 10,
                    exponent - |fraction|)
  {
    hide Natural, Power, Places;
    var shift := exponent - |fraction|;
    if shift >= 0 {
      TenPlaces(shift);
    } else {
      TenPlaces(-shift);
      DivideBack(Natural(whole + fraction) as real, Power(-shift));
    }
  }

  lemma DoubledDenotes(negative: bool, n: nat, shift: int)
    ensures Denotes(if negative then -Doubled(n as real, shift) else Doubled(n as real, shift), negative, n, 2, shift)
  {
    hide Power2, Places;
    if shift >= 0 {
      TwoPlaces(shift);
    } else {
      TwoPlaces(-shift);
      DivideBack(n as real, Power2(-shift) as real);
    }
  }

  // ----- Decimal numerals --------------------------------------------------------------------------------

  predicate IsSign(sign: string) { sign == "" || sign == "+" || sign == "-" }

  /** A point and digits, or neither. */
  predicate IsDotted(dotted: string, fraction: string) {
    (dotted == "" && fraction == "") || dotted == "." + fraction
  }

  /** A power's mark, its sign and its digits, or nothing. */
  predicate IsPower(power: string, mark: char, sign: string, digits: string) {
    || (power == "" && sign == "" && digits == "")
    || (power != "" && (power[0] == mark || power[0] as int + 32 == mark as int) && digits != ""
        && power[1..] == sign + digits)
  }

  /** What follows does not belong to the numeral. */
  predicate Ends(tail: string, whole: string, dotted: string, power: string) {
    tail != "" ==>
      && !('0' <= tail[0] <= '9')
      && (power == "" ==> tail[0] != 'e' && tail[0] != 'E')
      && (power == "" && dotted == "" ==> tail[0] != '.' && !(whole == "0" && (tail[0] == 'x' || tail[0] == 'X')))
  }

  function Exponent(sign: string, digits: string): int
    requires Digits(digits)
  {
    var n: int := Natural(digits);
    if sign == "-" then -n else n
  }

  lemma PowerReads(power: string, mark: char, sign: string, digits: string, tail: string)
    requires mark == 'e' || mark == 'p'
    requires Digits(digits) && IsSign(sign) && IsPower(power, mark, sign, digits)
    requires tail != "" ==> !IsDigit(tail[0]) && (power == "" ==> tail[0] != mark && tail[0] as int + 32 != mark as int)
    ensures ReadExponent(power + tail, mark) == Exponent(sign, digits)
  {
    if power == "" {
      assert power + tail == tail;
    } else {
      var body := digits + tail;
      assert (power + tail)[1..] == sign + body;
      assert sign != "" ==> (sign + body)[1..] == body;
      assert sign == "" ==> sign + body == body && body[0] == digits[0];
      LeadingOf(digits, tail);
    }
  }

  lemma UnsignedReads(negative: bool, whole: string, dotted: string, fraction: string, tail: string)
    requires Digits(whole) && Digits(fraction) && whole + fraction != "" && IsDotted(dotted, fraction)
    requires tail != "" ==> !IsDigit(tail[0]) && (dotted == "" ==> tail[0] != '.')
    ensures ReadUnsigned(negative, whole + (dotted + tail))
         == Some(Combine(negative, whole, fraction, ReadExponent(tail, 'e')))
  {
    hide ReadExponent, Combine;
    var pointed := dotted + tail;
    LeadingOf(whole, pointed);
    assert (whole + pointed)[|whole|..] == pointed;
    if dotted == "" {
      assert pointed == tail;
    } else {
      assert pointed[1..] == fraction + tail;
      LeadingOf(fraction, tail);
      assert pointed[1 + |fraction|..] == tail;
    }
  }

  lemma NotHexadecimal(whole: string, dotted: string, fraction: string, power: string, mark: char, sign: string,
        digits: string, tail: string)
    requires Digits(whole) && IsDotted(dotted, fraction) && Ends(tail, whole, dotted, power)
    requires mark == 'e' && IsPower(power, mark, sign, digits)
    ensures !IsHexText(whole + (dotted + (power + tail)))
  {
    var body := whole + (dotted + (power + tail));
    if |body| >= 2 && |whole| == 1 {
      assert body[1] == (dotted + (power + tail))[0];
      assert dotted != "" ==> body[1] == '.';
      assert dotted == "" && power != "" ==> body[1] == power[0];
      assert dotted == "" && power == "" ==> body[1] == tail[0];
      assert whole == [body[0]];
    } else if |body| >= 2 && |whole| >= 2 {
      assert body[1] == whole[1];
    } else if |body| >= 2 {
      assert dotted != "" ==> body[0] == '.';
      assert dotted == "" && power != "" ==> body[0] == power[0];
      assert dotted == "" && power == "" ==> body[0] == tail[0];
    }
  }

  lemma FirstOfNumeral(whole: string, dotted: string, fraction: string, rest: string)
    requires Digits(whole) && whole + fraction != "" && IsDotted(dotted, fraction)
    ensures var body := whole + (dotted + rest); body != "" && (IsDigit(body[0]) || body[0] == '.')
  {
    if whole == "" {
      assert whole + (dotted + rest) == dotted + rest && (dotted + rest)[0] == dotted[0];
    } else {
      assert (whole + (dotted + rest))[0] == whole[0];
    }
  }

  /** A decimal numeral, signed or not, with its digits before or after the point, with a power or without:
      its value, unless that is beyond a double. */
  lemma DecimalMeans(sign: string, whole: string, dotted: string, fraction: string, power: string, powerSign: string,
        digits: string, tail: string) returns (v: real)
    requires IsSign(sign) && Digits(whole) && Digits(fraction) && whole + fraction != "" && IsDotted(dotted, fraction)
    requires IsSign(powerSign) && Digits(digits) && IsPower(power, 'e', powerSign, digits)
    requires Ends(tail, whole, dotted, power)
    ensures Digits(whole + fraction)
         && Denotes(v, sign == "-", Natural(whole + fraction), 10, Exponent(powerSign, digits) - |fraction|)
    ensures ReadNumber(sign + (whole + (dotted + (power + tail))))
         == if BeyondDouble(v) then None else Some(Real(v))
  {
    hide ReadUnsigned, Combine, ReadExponent, Natural, BeyondDouble, Denotes, IsHexText, ReadHex;
    var body := whole + (dotted + (power + tail));
    var text := sign + body;
    var exponent := Exponent(powerSign, digits);
    v := Combine(sign == "-", whole, fraction, exponent);
    CombineDenotes(sign == "-", whole, fraction, exponent);
    assert power + tail != "" ==> (power + tail)[0] == if power != "" then power[0] else tail[0];
    PowerReads(power, 'e', powerSign, digits, tail);
    UnsignedReads(sign == "-", whole, dotted, fraction, power + tail);
    NotHexadecimal(whole, dotted, fraction, power, 'e', powerSign, digits, tail);
    FirstOfNumeral(whole, dotted, fraction, power + tail);
    assert sign == "" ==> text == body;
    assert sign != "" ==> text[0] == sign[0] && text[1..] == body;
  }

  // ----- Hexadecimal numerals -----------------------------------------------------------------------------

  /** The character stands for the digit, in either case. */
  predicate StandsFor(c: char, d: nat) {
    || (d < 10 && c as int == '0' as int + d)
    || (10 <= d < 16 && (c as int == 'a' as int + d - 10 || c as int == 'A' as int + d - 10))
  }

  function Positional(ds: seq<nat>, base: nat): nat {
    if ds == [] then 0 else base * Positional(ds[..|ds| - 1], base) + ds[|ds| - 1]
  }

  predicate Spells(s: string, ds: seq<nat>) { |s| == |ds| && forall i :: 0 <= i < |s| ==> StandsFor(s[i], ds[i]) }

  lemma {:induction false} HexadecimalIs(s: string, ds: seq<nat>)
    requires Spells(s, ds)
    ensures AllHex(s) && Hexadecimal(s) == Positional(ds, 16)
  {
    if s != "" { HexadecimalIs(s[..|s| - 1], ds[..|ds| - 1]); }
  }

  lemma {:induction false} LeadingHexOf(s: string, rest: string)
    requires AllHex(s) && (rest == "" || !IsHex(rest[0]))
    ensures LeadingHex(s + rest) == s
  {
    if s == "" {
      assert s + rest == rest;
    } else {
      assert (s + rest)[1..] == s[1..] + rest;
      LeadingHexOf(s[1..], rest);
      assert s == [s[0]] + s[1..];
    }
  }

  predicate IsHexCharacter(c: char) { '0' <= c <= '9' || 'a' <= c <= 'f' || 'A' <= c <= 'F' }

  predicate HexEnds(tail: string, dotted: string, power: string) {
    tail != "" ==>
      && !('0' <= tail[0] <= '9')
      && (power == "" ==> !IsHexCharacter(tail[0]) && tail[0] != 'p' && tail[0] != 'P')
      && (power == "" && dotted == "" ==> tail[0] != '.')
  }

  lemma HexParts(negative: bool, whole: string, dotted: string, fraction: string, rest: string)
    requires AllHex(whole) && AllHex(fraction) && IsDotted(dotted, fraction)
    requires rest != "" ==> !IsHex(rest[0]) && (dotted == "" ==> rest[0] != '.')
    ensures ReadHex(negative, whole + (dotted + rest)) == ReadHexMantissa(negative, whole, fraction, rest)
  {
    hide ReadHexMantissa, IsHex;
    var pointed := dotted + rest;
    NoHexHere(dotted, fraction, rest);
    LeadingHexOf(whole, pointed);
    assert (whole + pointed)[|whole|..] == pointed;
    if dotted == "" {
      assert pointed == rest;
    } else {
      assert pointed[0] == '.' && pointed[1..] == fraction + rest && pointed[1 + |fraction|..] == rest;
      LeadingHexOf(fraction, rest);
    }
  }

  lemma NoHexHere(dotted: string, fraction: string, rest: string)
    requires IsDotted(dotted, fraction) && (rest != "" ==> !IsHex(rest[0]))
    ensures dotted + rest == "" || !IsHex((dotted + rest)[0])
  {
    if dotted == "" { assert dotted + rest == rest; }
  }

  /** A hexadecimal numeral, with or without a point and a power of two. */
  lemma HexadecimalMeans(sign: string, x: char, whole: string, dotted: string, fraction: string, ds: seq<nat>,
        power: string, powerSign: string, digits: string, tail: string) returns (v: real)
    requires IsSign(sign) && (x == 'x' || x == 'X') && whole + fraction != "" && IsDotted(dotted, fraction)
    requires Spells(whole + fraction, ds)
    requires IsSign(powerSign) && Digits(digits) && IsPower(power, 'p', powerSign, digits)
    requires HexEnds(tail, dotted, power)
    ensures Denotes(v, sign == "-", Positional(ds, 16), 2, Exponent(powerSign, digits) - 4 * |fraction|)
    ensures ReadNumber(sign + ("0" + [x] + (whole + (dotted + (power + tail)))))
         == if BeyondDouble(v) then None else Some(Real(v))
  {
    hide Doubled, ReadExponent, Natural, BeyondDouble, Denotes, ReadHex, Positional, Hexadecimal, IsPower, HexEnds, IsHex;
    var inner := whole + (dotted + (power + tail));
    HexadecimalIs(whole + fraction, ds);
    var n, shift := Hexadecimal(whole + fraction), Exponent(powerSign, digits) - 4 * |fraction|;
    v := if sign == "-" then -Doubled(n as real, shift) else Doubled(n as real, shift);
    DoubledDenotes(sign == "-", n, shift);
    HexHalves(whole, fraction);
    PowerEnds(dotted, power, powerSign, digits, tail);
    PowerReads(power, 'p', powerSign, digits, tail);
    HexParts(sign == "-", whole, dotted, fraction, power + tail);
    SignedHex(sign, x, inner);
  }

  lemma PowerEnds(dotted: string, power: string, sign: string, digits: string, tail: string)
    requires IsPower(power, 'p', sign, digits) && HexEnds(tail, dotted, power)
    ensures power + tail != "" ==> !IsHex((power + tail)[0]) && (dotted == "" ==> (power + tail)[0] != '.')
    ensures tail != "" ==> !IsDigit(tail[0]) && (power == "" ==> tail[0] != 'p' && tail[0] != 'P')
  {
    if power == "" { assert power + tail == tail; }
  }

  /** A sign, the mark of a hexadecimal numeral and what it holds. */
  lemma SignedHex(sign: string, x: char, inner: string)
    requires IsSign(sign) && (x == 'x' || x == 'X') && ReadHex(sign == "-", inner).Some?
    ensures var v := ReadHex(sign == "-", inner).value;
            ReadNumber(sign + ("0" + [x] + inner)) == if BeyondDouble(v) then None else Some(Real(v))
  {
    hide ReadHex, ReadUnsigned, BeyondDouble;
    var body := "0" + [x] + inner;
    var text := sign + body;
    assert body[2..] == inner && body[0] == '0' && body[1] == x;
    assert sign == "" ==> text == body;
    assert sign != "" ==> text[0] == sign[0] && text[1..] == body;
  }

  lemma HexHalves(whole: string, fraction: string)
    requires AllHex(whole + fraction)
    ensures AllHex(whole) && AllHex(fraction)
  {
    assert forall i :: 0 <= i < |whole| ==> whole[i] == (whole + fraction)[i];
    assert forall i :: 0 <= i < |fraction| ==> fraction[i] == (whole + fraction)[|whole| + i];
  }

  // ----- Words, and nothing --------------------------------------------------------------------------------

  /** The word in letters of either case. */
  predicate IsWord(w: string, word: string) {
    |w| == |word| && forall i :: 0 <= i < |w| ==> w[i] == word[i] || w[i] as int + 32 == word[i] as int
  }

  lemma WordsMean(sign: string, w: string, tail: string)
    requires IsSign(sign)
    ensures IsWord(w, "nan") ==> ReadNumber(sign + (w + tail)) == Some(NotANumber)
    ensures IsWord(w, "inf") ==> ReadNumber(sign + (w + tail)) == Some(Infinite(sign == "-"))
  {
    hide ReadFinite;
    var text := sign + (w + tail);
    assert sign == "" ==> text == w + tail;
    assert sign != "" ==> text[0] == sign[0] && text[1..] == w + tail;
    assert forall i :: 0 <= i < |w| ==> (w + tail)[i] == w[i];
  }

  /** Text that starts with no digit, point or word holds no number. */
  lemma NothingMeans(sign: string, rest: string)
    requires IsSign(sign) && (sign == "" && rest != "" ==> rest[0] != '+' && rest[0] != '-')
    requires rest != "" ==> !('0' <= rest[0] <= '9') && rest[0] !in {'.', 'n', 'N', 'i', 'I'}
    ensures ReadNumber(sign + rest) == None
  {
    hide ReadExponent, Combine, ReadHex;
    var text := sign + rest;
    assert sign == "" ==> text == rest;
    assert sign != "" ==> text[0] == sign[0] && text[1..] == rest;
  }
}
