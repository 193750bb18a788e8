/** JSON values and the text `json.dump(..., indent=2)` writes for them (RFC 8259, sections 4
    to 7). Every emitter takes the text that follows, so a document is one chain of suffixes. */
module JsonText {
  import opened Text

  /** A decimal numeral: sign, digits before the point, digits after it, and an exponent. */
  datatype Number = Number(negative: bool, whole: string, fraction: string, exponent: Option<Exponent>)
  datatype Exponent = Exponent(negative: bool, digits: string)

  datatype Json =
    | Null
    | Bool(b: bool)
    | Num(n: Number)
    | Str(s: string)
    | Arr(items: seq<Json>)
    | Obj(members: seq<Member>)

  datatype Member = Member(key: string, value: Json)

  // ----- Strings ---------------------------------------------------------------------------

  function HexDigit(n: nat): char
    requires n < 16
  {
    "0123456789abcdef"[n]
  }

  function Unicode(n: nat): string
    requires n < 0x1_0000
  {
    ['\\', 'u', HexDigit(n / 4096), HexDigit(n / 256 % 16), HexDigit(n / 16 % 16), HexDigit(n % 16)]
  }

  /** What a character becomes between the quotes: itself from ' ' to '~', save the quote and
      the backslash, and an escape otherwise; beyond 16 bits, a surrogate pair. */
  function EscapeChar(c: char): string {
    if c == '"' then "\\\""
    else if c == '\\' then "\\\\"
    else if ' ' <= c <= '~' then [c]
    else if c == '\n' then "\\n"
    else if c == '\r' then "\\r"
    else if c == '\t' then "\\t"
    else if c as int == 8 then "\\b"
    else if c as int == 12 then "\\f"
    else if c as int < 0x1_0000 then Unicode(c as int)
    else
      var n := c as int - 0x1_0000;
      Unicode(0xD800 + n / 1024) + Unicode(0xDC00 + n % 1024)
  }

  function Quoted(s: string, rest: string): string {
    "\"" + EscapedThen(s, "\"" + rest)
  }

  /** The escaped text of `s`, followed by `rest`. */
  function EscapedThen(s: string, rest: string): string {
    if s == "" then rest else EscapeChar(s[0]) + EscapedThen(s[1..], rest)
  }

  // ----- Numbers ----------------------------------------------------------------------------

  predicate WellFormedNumber(n: Number) {
    && n.whole != "" && Digits(n.whole) && Digits(n.fraction)
    && (n.exponent.Some? ==> n.exponent.value.digits != "" && Digits(n.exponent.value.digits))
  }

  function NumberText(n: Number, rest: string): string {
    (if n.negative then "-" else "") + (n.whole
      + ((if n.fraction == "" then "" else "." + n.fraction) + ExponentText(n.exponent, rest)))
  }

  function ExponentText(e: Option<Exponent>, rest: string): string {
    match e
    case None => rest
    case Some(x) => "e" + ((if x.negative then "-" else "+") + (x.digits + rest))
  }

  // ----- Documents --------------------------------------------------------------------------

  function Indent(level: nat): string {
    if level == 0 then "" else "  " + Indent(level - 1)
  }

  function Emit(j: Json, level: nat, rest: string): string
    decreases j, 1
  {
    match j
    case Null => "null" + rest
    case Bool(b) => (if b then "true" else "false") + rest
    case Num(n) => NumberText(n, rest)
    case Str(s) => Quoted(s, rest)
    case Arr(items) =>
      if items == [] then "[]" + rest
      else "[" + EmitItems(items, level + 1, "\n" + (Indent(level) + ("]" + rest)))
    case Obj(members) =>
      if members == [] then "{}" + rest
      else "{" + EmitMembers(members, level + 1, "\n" + (Indent(level) + ("}" + rest)))
  }

  function EmitItems(items: seq<Json>, level: nat, rest: string): string
    decreases items, 0
  {
    if items == [] then rest
    else "\n" + (Indent(level) + Emit(items[0], level, After(|items|, EmitItems(items[1..], level, rest))))
  }

  function EmitMembers(members: seq<Member>, level: nat, rest: string): string
    decreases members, 0
  {
    if members == [] then rest
    else
      var value := members[0].value;
      "\n" + (Indent(level) + Quoted(members[0].key,
        ": " + Emit(value, level, After(|members|, EmitMembers(members[1..], level, rest)))))
  }

  /** A comma stands between neighbours. */
  function After(left: nat, rest: string): string {
    if left > 1 then "," + rest else rest
  }

  /** The whole file. */
  function Document(j: Json): string {
    Emit(j, 0, "")
  }
}
