/** Written strings read back by the grammar's own rules (RFC 8259, section 7). */
module JsonStrings {
  import opened Text
  import opened JsonText

  function HexOf(c: char): Option<nat> {
    if '0' <= c <= '9' then Some(c as nat - '0' as nat)
    else if 'a' <= c <= 'f' then Some(c as nat - 'a' as nat + 10)
    else if 'A' <= c <= 'F' then Some(c as nat - 'A' as nat + 10)
    else None
  }

  /** The code unit of four hexadecimal digits in front. */
  function CodeUnit(s: string): Option<nat> {
    if |s| < 4 then None
    else
      match (HexOf(s[0]), HexOf(s[1]), HexOf(s[2]), HexOf(s[3]))
      case (Some(a), Some(b), Some(c), Some(d)) => Some(((a * 16 + b) * 16 + c) * 16 + d)
      case _ => None
  }

  /** The character a two-character escape stands for. */
  function Escaped(c: char): Option<char> {
    if c == '"' || c == '\\' || c == '/' then Some(c)
    else if c == 'b' then Some(8 as char)
    else if c == 'f' then Some(12 as char)
    else if c == 'n' then Some('\n')
    else if c == 'r' then Some('\r')
    else if c == 't' then Some('\t')
    else None
  }

  /** One character in front and the text behind it; a pair of escapes for one beyond sixteen bits. */
  function Character(s: string): Option<(char, string)> {
    if s == "" then None
    else if s[0] != '\\' then Some((s[0], s[1..]))
    else if |s| < 2 then None
    else if s[1] != 'u' then
      match Escaped(s[1]) case Some(c) => Some((c, s[2..])) case None => None
    else
      match CodeUnit(s[2..])
      case None => None
      case Some(n) =>
        if n < 0xD800 || 0xDFFF < n < 0x1_0000 then Some((n as char, s[6..]))
        else if n < 0xDC00 && |s| >= 12 && s[6..8] == "\\u" then
          match CodeUnit(s[8..])
          case Some(m) =>
            if 0xDC00 <= m < 0xE000 then Some(((0x1_0000 + (n - 0xD800) * 1024 + (m - 0xDC00)) as char, s[12..]))
            else None
          case None => None
        else None
  }

  /** The string up to the closing quote, and the text behind it. */
  function ReadString(s: string): Option<(string, string)> {
    if s != "" && s[0] == '"' then Some(("", s[1..]))
    else
      match Character(s)
      case None => None
      case Some((c, rest)) =>
        if |rest| >= |s| then None
        else
          match ReadString(rest)
          case None => None
          case Some((more, left)) => Some(([c] + more, left))
  }

  lemma DigitReads(n: nat)
    requires n < 16
    ensures HexOf(HexDigit(n)) == Some(n)
  {}

  lemma FourDigits(n: nat)
    requires n < 0x1_0000
    ensures n / 4096 < 16
    ensures ((n / 4096 * 16 + n / 256 % 16) * 16 + n / 16 % 16) * 16 + n % 16 == n
  {}

  lemma CodeUnitReads(n: nat, rest: string)
    requires n < 0x1_0000
    ensures |Unicode(n)| == 6 && Unicode(n)[..2] == "\\u" && CodeUnit(Unicode(n)[2..] + rest) == Some(n)
  {
    hide HexDigit, HexOf;
    FourDigits(n);
    DigitReads(n / 4096);
    DigitReads(n / 256 % 16);
    DigitReads(n / 16 % 16);
    DigitReads(n % 16);
  }

  lemma ShortReads(c: char, rest: string)
    requires c as int < 0x1_0000
    ensures Character(Unicode(c as int) + rest) == Some((c, rest))
  {
    hide CodeUnit;
    var u := Unicode(c as int);
    CodeUnitReads(c as int, rest);
    hide Unicode;
    var s := u + rest;
    assert s[0] == u[..2][0] && s[1] == u[..2][1] && s[2..] == u[2..] + rest && s[6..] == rest;
  }

  lemma PairReads(c: char, rest: string)
    requires c as int >= 0x1_0000
    ensures Character(EscapeChar(c) + rest) == Some((c, rest))
  {
    hide CodeUnit, Unicode;
    var n := c as int - 0x1_0000;
    var high, low := Unicode(0xD800 + n / 1024), Unicode(0xDC00 + n % 1024);
    CodeUnitReads(0xD800 + n / 1024, low + rest);
    CodeUnitReads(0xDC00 + n % 1024, rest);
    var s := high + (low + rest);
    assert EscapeChar(c) + rest == s;
    assert s[0] == high[..2][0] && s[1] == high[..2][1] && s[2..] == high[2..] + (low + rest);
    assert s[6..8] == low[..2] && s[8..] == low[2..] + rest && s[12..] == rest;
  }

  /** What a character becomes reads as that character, and never as the closing quote. */
  lemma CharacterReads(c: char, rest: string)
    ensures var e := EscapeChar(c); |e| > 0 && e[0] != '"' && Character(e + rest) == Some((c, rest))
  {
    var e := EscapeChar(c);
    if c as int >= 0x1_0000 {
      CodeUnitReads(0xD800 + (c as int - 0x1_0000) / 1024, rest);
      PairReads(c, rest);
    } else if c != '"' && c != '\\' && !(' ' <= c <= '~') && c !in {'\n', '\r', '\t'} && c as int != 8 && c as int != 12 {
      CodeUnitReads(c as int, rest);
      ShortReads(c, rest);
    } else {
      PlainReads(c, rest);
    }
  }

  lemma PlainReads(c: char, rest: string)
    requires c == '"' || c == '\\' || ' ' <= c <= '~' || c in {'\n', '\r', '\t'} || c as int == 8 || c as int == 12
    ensures var e := EscapeChar(c); |e| > 0 && e[0] != '"' && Character(e + rest) == Some((c, rest))
  {
    var e := EscapeChar(c);
    assert |e| == 1 ==> (e + rest)[1..] == rest;
    assert |e| == 2 ==> (e + rest)[2..] == rest;
  }

  /** Any string, written between quotes and followed by any text, is read back whole. */
  lemma {:induction false} StringsReadBack(s: string, rest: string)
    ensures Quoted(s, rest) == "\"" + EscapedThen(s, "\"" + rest)
    ensures ReadString(EscapedThen(s, "\"" + rest)) == Some((s, rest))
  {
    hide Character, EscapeChar;
    if s == "" {
      assert ("\"" + rest)[1..] == rest;
    } else {
      var tail := EscapedThen(s[1..], "\"" + rest);
      CharacterReads(s[0], tail);
      StringsReadBack(s[1..], rest);
      assert s == [s[0]] + s[1..];
    }
  }
}
