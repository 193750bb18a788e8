/** What the flat reader reads of a document, said on the value instead of the text: it reads
    the value of the first hit of the key, in the order the document is written. */
module FlatReading {
  import opened Text
  import opened JsonText
  import opened FlatReader

  // ----- Hits -----------------------------------------------------------------------------

  /** A searched key: printed as it is, with none of the characters that stand around tokens. */
  predicate PlainKey(k: string) {
    k != "" && PlainChars(k) && !Delimiter(k[0])
  }

  /** What can follow a string token. */
  predicate Delimiter(c: char) { c == ':' || c == ',' || c == '\n' }

  predicate Delimited(rest: string) { rest == "" || Delimiter(rest[0]) }

  predicate EndsWithQuotedKey(s: string, k: string) {
    |s| > |k| && s[|s| - |k| - 1] == '"' && s[|s| - |k|..] == k
  }

  /** `"key"` stands in the token of `s`: the token is the key, or ends with an escaped quote
      and the key. */
  predicate Clashes(s: string, k: string) {
    s == k || EndsWithQuotedKey(s, k)
  }

  /** A hit in a key leads to that member's value; one in a string value leads astray. */
  datatype Hit = Field(value: Json) | Stray

  function Hits(j: Json, k: string): seq<Hit>
    decreases j, 1
  {
    match j
    case Str(s) => if Clashes(s, k) then [Stray] else []
    case Arr(items) => ItemHits(items, k)
    case Obj(members) => MemberHits(members, k)
    case _ => []
  }

  function ItemHits(items: seq<Json>, k: string): seq<Hit>
    decreases items, 0
  {
    if items == [] then [] else Hits(items[0], k) + ItemHits(items[1..], k)
  }

  function MemberHits(members: seq<Member>, k: string): seq<Hit>
    decreases members, 0
  {
    if members == [] then []
    else
      var value := members[0].value;
      (if Clashes(members[0].key, k) then [Field(value)] else [])
      + (Hits(value, k) + MemberHits(members[1..], k))
  }

  // ----- Searching a chain of suffixes -----------------------------------------------------

  predicate OccursAt(text: string, k: string, p: nat) {
    p <= |text| && StartsWith(text[p..], Needle(k))
  }

  lemma {:induction false} StartsWithStep(s: string, prefix: string)
    requires s != "" && prefix != ""
    ensures StartsWith(s, prefix) <==> s[0] == prefix[0] && StartsWith(s[1..], prefix[1..])
  {
    assert s == [s[0]] + s[1..] && prefix == [prefix[0]] + prefix[1..];
    if |prefix| <= |s| {
      assert s[..|prefix|] == [s[0]] + s[1..][..|prefix| - 1];
    }
  }

  lemma OccurrenceIsQuote(text: string, k: string, p: nat)
    ensures OccursAt(text, k, p) ==> p < |text| && text[p] == '"'
  {
    if p < |text| { StartsWithStep(text[p..], Needle(k)); }
  }

  /** `text` ends with `rest`, and the needle does not stand anywhere before that. */
  ghost predicate Clears(text: string, rest: string, k: string) {
    && |rest| <= |text| && text[|text| - |rest|..] == rest
    && forall p: nat :: p < |text| - |rest| ==> !OccursAt(text, k, p)
  }

  lemma ClearsChain(a: string, b: string, c: string, k: string)
    requires Clears(a, b, k) && Clears(b, c, k)
    ensures Clears(a, c, k)
  {
    var n := |a| - |b|;
    assert a[|a| - |c|..] == a[n..][|b| - |c|..];
    forall p: nat | n <= p < |a| - |c|
      ensures !OccursAt(a, k, p)
    {
      assert a[p..] == a[n..][p - n..] == b[p - n..];
      assert !OccursAt(b, k, p - n);
    }
  }

  /** Text without a quote never starts the needle. */
  lemma ClearsPlain(x: string, rest: string, k: string)
    requires '"' !in x
    ensures Clears(x + rest, rest, k)
  {
    forall p: nat | p < |x|
      ensures !OccursAt(x + rest, k, p)
    {
      assert (x + rest)[p] == x[p] && x[p] in x;
      OccurrenceIsQuote(x + rest, k, p);
    }
  }

  lemma ClearsNothing(text: string, k: string)
    ensures Clears(text, text, k)
  {}

  /** A quote that is not followed by the key and another quote. */
  lemma ClearsQuote(text: string, k: string)
    requires !StartsWith(text, k + "\"")
    ensures Clears("\"" + text, text, k)
  {
    StartsWithStep("\"" + text, Needle(k));
    assert ("\"" + text)[1..] == text && Needle(k)[1..] == k + "\"";
    assert ("\"" + text)[0..] == "\"" + text;
  }

  // ----- String tokens ------------------------------------------------------------------------

  lemma HexIsPlain(n: nat)
    requires n < 0x1_0000
    ensures Unicode(n)[0] == '\\' && |Unicode(n)| == 6 && '"' !in Unicode(n)
  {
    var digits := "0123456789abcdef";
    assert '"' !in digits;
    assert forall i :: 0 <= i < 16 ==> digits[i] in digits;
  }

  /** An escape starts with a backslash; the only quote in one is that of an escaped quote. */
  lemma UnicodeShape(c: char)
    requires c as int >= 127 || c as int < 32
    ensures var u := if c as int < 0x1_0000 then Unicode(c as int)
                     else Unicode(0xD800 + (c as int - 0x1_0000) / 1024) + Unicode(0xDC00 + (c as int - 0x1_0000) % 1024);
            u != "" && u[0] == '\\' && '"' !in u
  {
    hide Unicode;
    if c as int >= 0x1_0000 {
      var n := c as int - 0x1_0000;
      HexIsPlain(0xD800 + n / 1024);
      HexIsPlain(0xDC00 + n % 1024);
    } else {
      HexIsPlain(c as int);
    }
  }

  lemma EscapeShape(c: char)
    ensures c == '"' ==> EscapeChar(c) == "\\\""
    ensures c != '"' ==> '"' !in EscapeChar(c)
    ensures EscapeChar(c) != "" && EscapeChar(c)[0] != '"'
    ensures if ' ' <= c <= '~' && c != '"' && c != '\\' then EscapeChar(c) == [c] else EscapeChar(c)[0] == '\\'
  {
    hide Unicode;
    if !(' ' <= c <= '~') { UnicodeShape(c); }
  }

  predicate PlainChar(c: char) { ' ' < c <= '~' && c != '"' && c != '\\' }

  predicate PlainChars(k: string) { forall i :: 0 <= i < |k| ==> PlainChar(k[i]) }

  /** The key and its closing quote stand at the front of an escaped string exactly when the
      string is the key and its own closing quote follows. */
  lemma {:induction false} KeyAtFront(s: string, k: string, end: char, rest: string)
    requires PlainChars(k) && (end == '"' || end == '\\')
    ensures StartsWith(EscapedThen(s, [end] + rest), k + "\"") <==> s == k && end == '"'
  {
    var text := EscapedThen(s, [end] + rest);
    if s == "" {
      StartsWithStep(text, k + "\"");
      assert k == "" ==> (k + "\"")[1..] == "";
      assert k != "" ==> (k + "\"")[0] == k[0];
    } else {
      EscapeShape(s[0]);
      var tail := EscapedThen(s[1..], [end] + rest);
      StartsWithStep(text, k + "\"");
      if k != "" {
        assert (k + "\"")[1..] == k[1..] + "\"" && (k + "\"")[0] == k[0];
        assert s == [s[0]] + s[1..] && k == [k[0]] + k[1..];
        if s[0] == k[0] {
          KeyAtFront(s[1..], k[1..], end, rest);
          assert text[1..] == tail;
        }
      }
    }
  }

  lemma EndsWithStep(s: string, k: string)
    requires s != ""
    ensures EndsWithQuotedKey(s, k) <==> EndsWithQuotedKey(s[1..], k) || (s[0] == '"' && s[1..] == k)
  {
    if |s| > |k| + 1 {
      assert s[1..][|s| - 1 - |k|..] == s[|s| - |k|..];
    } else if |s| == |k| + 1 {
      assert s[|s| - |k|..] == s[1..];
    }
  }

  /** One escaped character; after an escaped quote the key and a quote must not follow. */
  lemma EscapeClears(c: char, tail: string, k: string)
    requires c == '"' ==> !StartsWith(tail, k + "\"")
    ensures Clears(EscapeChar(c) + tail, tail, k)
  {
    EscapeShape(c);
    if c == '"' {
      ClearsQuote(tail, k);
      ClearsPlain("\\", "\"" + tail, k);
      assert "\\\"" + tail == "\\" + ("\"" + tail);
      ClearsChain("\\\"" + tail, "\"" + tail, tail, k);
    } else {
      ClearsPlain(EscapeChar(c), tail, k);
    }
  }

  /** The escaped text of `s` up to a quote or a backslash holds no occurrence, unless `s` ends
      with a quote and the key and the quote follows. */
  lemma {:induction false} InsideToken(s: string, k: string, end: char, rest: string)
    requires PlainKey(k) && (end == '"' || end == '\\')
    requires end == '"' ==> !EndsWithQuotedKey(s, k)
    ensures Clears(EscapedThen(s, [end] + rest), [end] + rest, k)
  {
    hide EscapeChar, EndsWithQuotedKey;
    var text := EscapedThen(s, [end] + rest);
    if s == "" {
      ClearsNothing(text, k);
    } else {
      var tail := EscapedThen(s[1..], [end] + rest);
      EndsWithStep(s, k);
      InsideToken(s[1..], k, end, rest);
      KeyAtFront(s[1..], k, end, rest);
      EscapeClears(s[0], tail, k);
      ClearsChain(text, tail, [end] + rest, k);
    }
  }

  /** A string token that does not clash holds no occurrence, its closing quote included. */
  lemma TokenIsClear(s: string, k: string, rest: string)
    requires PlainKey(k) && !Clashes(s, k) && Delimited(rest)
    ensures Clears(Quoted(s, rest), rest, k)
  {
    var inside := EscapedThen(s, "\"" + rest);
    KeyAtFront(s, k, '"', rest);
    ClearsQuote(inside, k);
    InsideToken(s, k, '"', rest);
    ClearsChain(Quoted(s, rest), inside, "\"" + rest, k);
    if rest != "" { StartsWithStep(rest, k + "\""); }
    ClearsQuote(rest, k);
    ClearsChain(Quoted(s, rest), "\"" + rest, rest, k);
  }

  /** Text the string reader gives back as it is: what the writer prints unescaped. */
  predicate Verbatim(s: string) {
    forall i :: 0 <= i < |s| ==> ' ' <= s[i] <= '~' && s[i] != '"' && s[i] != '\\'
  }

  lemma {:induction false} VerbatimText(s: string, rest: string)
    requires Verbatim(s)
    ensures EscapedThen(s, rest) == s + rest
  {
    if s != "" {
      EscapeShape(s[0]);
      VerbatimText(s[1..], rest);
      assert s == [s[0]] + s[1..];
      assert [s[0]] + (s[1..] + rest) == s + rest;
    }
  }

  lemma {:induction false} EscapedJoin(a: string, b: string, rest: string)
    ensures EscapedThen(a + b, rest) == EscapedThen(a, EscapedThen(b, rest))
  {
    if a == "" {
      assert a + b == b;
    } else {
      assert (a + b)[1..] == a[1..] + b;
      EscapedJoin(a[1..], b, rest);
    }
  }

  lemma NeedleText(k: string, rest: string)
    ensures "\"" + (k + ("\"" + rest)) == Needle(k) + rest
  {}

  lemma QuoteThenKeyText(k: string, rest: string)
    requires PlainChars(k)
    ensures EscapedThen(['"'] + k, "\"" + rest) == ['\\'] + (Needle(k) + rest)
  {
    var s := ['"'] + k;
    assert s[1..] == k;
    EscapeShape('"');
    VerbatimText(k, "\"" + rest);
    NeedleText(k, rest);
    assert EscapedThen(s, "\"" + rest) == ['\\', '"'] + (k + ("\"" + rest));
  }

  /** A token that ends with a quote and the key: the text from its escaped quote on. */
  lemma QuotedKeyText(s: string, k: string, rest: string)
    requires PlainChars(k) && EndsWithQuotedKey(s, k)
    ensures EscapedThen(s, "\"" + rest) == EscapedThen(s[..|s| - |k| - 1], ['\\'] + (Needle(k) + rest))
  {
    hide EscapedThen, PlainChars;
    var front := s[..|s| - |k| - 1];
    assert s == front + (['"'] + k);
    EscapedJoin(front, ['"'] + k, "\"" + rest);
    QuoteThenKeyText(k, rest);
  }

  /** In a token that clashes, the first occurrence is followed by what follows the token. */
  lemma TokenHit(s: string, k: string, rest: string)
    requires PlainKey(k) && Clashes(s, k)
    ensures Clears(Quoted(s, rest), Needle(k) + rest, k)
  {
    if s == k {
      VerbatimText(k, "\"" + rest);
      NeedleText(k, rest);
      ClearsNothing(Quoted(s, rest), k);
    } else {
      var inside, last := EscapedThen(s, "\"" + rest), ['\\'] + (Needle(k) + rest);
      QuotedKeyText(s, k, rest);
      KeyAtFront(s, k, '"', rest);
      ClearsQuote(inside, k);
      InsideToken(s[..|s| - |k| - 1], k, '\\', Needle(k) + rest);
      ClearsPlain(['\\'], Needle(k) + rest, k);
      ClearsChain(inside, last, Needle(k) + rest, k);
      ClearsChain(Quoted(s, rest), inside, Needle(k) + rest, k);
    }
  }

  // ----- Documents --------------------------------------------------------------------------------

  predicate NumbersOk(j: Json)
    decreases j, 1
  {
    match j
    case Num(n) => WellFormedNumber(n)
    case Arr(items) => forall i :: 0 <= i < |items| ==> NumbersOk(items[i])
    case Obj(members) => MembersOk(members)
    case _ => true
  }

  predicate MembersOk(members: seq<Member>)
    decreases members, 0
  {
    forall i :: 0 <= i < |members| ==> var value := members[i].value; NumbersOk(value)
  }

  lemma IndentIsPlain(level: nat)
    ensures '"' !in Indent(level)
  {}

  lemma DigitsArePlain(s: string)
    requires Digits(s)
    ensures '"' !in s
  {}

  lemma NumberClears(n: Number, rest: string, k: string)
    requires WellFormedNumber(n)
    ensures Clears(NumberText(n, rest), rest, k)
  {
    var e := ExponentText(n.exponent, rest);
    var f := if n.fraction == "" then "" else "." + n.fraction;
    DigitsArePlain(n.whole);
    DigitsArePlain(n.fraction);
    if n.exponent.Some? {
      var x := n.exponent.value;
      var sign := if x.negative then "-" else "+";
      DigitsArePlain(x.digits);
      ClearsPlain(x.digits, rest, k);
      ClearsPlain(sign, x.digits + rest, k);
      ClearsPlain("e", sign + (x.digits + rest), k);
      ClearsChain(sign + (x.digits + rest), x.digits + rest, rest, k);
      ClearsChain(e, sign + (x.digits + rest), rest, k);
    } else {
      ClearsNothing(rest, k);
    }
    ClearsPlain(f, e, k);
    ClearsPlain(n.whole, f + e, k);
    ClearsPlain(if n.negative then "-" else "", n.whole + (f + e), k);
    ClearsChain(f + e, e, rest, k);
    ClearsChain(n.whole + (f + e), f + e, rest, k);
    ClearsChain(NumberText(n, rest), n.whole + (f + e), rest, k);
  }

  /** The end of a container: a newline, the indent and the bracket. */
  lemma ClosingClears(level: nat, bracket: string, rest: string, k: string)
    requires bracket == "}" || bracket == "]"
    ensures Clears("\n" + (Indent(level) + (bracket + rest)), rest, k)
  {
    IndentIsPlain(level);
    ClearsPlain(bracket, rest, k);
    ClearsPlain(Indent(level), bracket + rest, k);
    ClearsPlain("\n", Indent(level) + (bracket + rest), k);
    ClearsChain(Indent(level) + (bracket + rest), bracket + rest, rest, k);
    ClearsChain("\n" + (Indent(level) + (bracket + rest)), Indent(level) + (bracket + rest), rest, k);
  }

  lemma LineClears(level: nat, rest: string, k: string)
    ensures Clears("\n" + (Indent(level) + rest), rest, k)
  {
    IndentIsPlain(level);
    ClearsPlain(Indent(level), rest, k);
    ClearsPlain("\n", Indent(level) + rest, k);
    ClearsChain("\n" + (Indent(level) + rest), Indent(level) + rest, rest, k);
  }

  lemma AfterClears(left: nat, rest: string, k: string)
    ensures Clears(After(left, rest), rest, k)
  {
    if left > 1 { ClearsPlain(",", rest, k); } else { ClearsNothing(rest, k); }
  }

  /** A value without hits holds no occurrence of the needle. */
  lemma {:induction false} EmitClears(j: Json, level: nat, rest: string, k: string)
    requires PlainKey(k) && NumbersOk(j) && Hits(j, k) == [] && Delimited(rest)
    ensures Clears(Emit(j, level, rest), rest, k)
    decreases j, 2
  {
    hide Clears, Quoted, NumberText, Clashes;
    match j {
      case Null => ClearsPlain("null", rest, k);
      case Bool(b) => ClearsPlain(if b then "true" else "false", rest, k);
      case Num(n) => NumberClears(n, rest, k);
      case Str(s) => TokenIsClear(s, k, rest);
      case Arr(items) =>
        ItemsEmit(items, level, rest, k);
      case Obj(members) =>
        MembersEmit(members, level, rest, k);
    }
  }

  lemma ContainerClears(bracket: string, body: string, close: string, rest: string, k: string)
    requires '"' !in bracket && Clears(body, close, k) && Clears(close, rest, k)
    ensures Clears(bracket + body, rest, k)
  {
    ClearsPlain(bracket, body, k);
    ClearsChain(body, close, rest, k);
    ClearsChain(bracket + body, body, rest, k);
  }

  lemma {:induction false} ItemsEmit(items: seq<Json>, level: nat, rest: string, k: string)
    requires PlainKey(k) && (forall i :: 0 <= i < |items| ==> NumbersOk(items[i]))
    requires ItemHits(items, k) == [] && Delimited(rest)
    ensures Clears(Emit(Arr(items), level, rest), rest, k)
    decreases items, 1
  {
    hide Clears;
    if items == [] {
      ClearsPlain("[]", rest, k);
    } else {
      var close := "\n" + (Indent(level) + ("]" + rest));
      ItemsClear(items, level + 1, close, k);
      ClosingClears(level, "]", rest, k);
      ContainerClears("[", EmitItems(items, level + 1, close), close, rest, k);
    }
  }

  lemma {:induction false} MembersEmit(members: seq<Member>, level: nat, rest: string, k: string)
    requires PlainKey(k) && MembersOk(members) && MemberHits(members, k) == [] && Delimited(rest)
    ensures Clears(Emit(Obj(members), level, rest), rest, k)
    decreases members, 1
  {
    hide Clears;
    if members == [] {
      ClearsPlain("{}", rest, k);
    } else {
      var close := "\n" + (Indent(level) + ("}" + rest));
      MembersClear(members, level + 1, close, k);
      ClosingClears(level, "}", rest, k);
      ContainerClears("{", EmitMembers(members, level + 1, close), close, rest, k);
    }
  }

  lemma {:induction false} ItemsClear(items: seq<Json>, level: nat, rest: string, k: string)
    requires PlainKey(k) && (forall i :: 0 <= i < |items| ==> NumbersOk(items[i]))
    requires ItemHits(items, k) == [] && Delimited(rest)
    ensures Clears(EmitItems(items, level, rest), rest, k)
    decreases items, 0
  {
    hide Clears, Quoted, NumberText, Clashes;
    if items == [] {
      ClearsNothing(rest, k);
    } else {
      var tail := EmitItems(items[1..], level, rest);
      var next := After(|items|, tail);
      ItemsClear(items[1..], level, rest, k);
      AfterClears(|items|, tail, k);
      EmitClears(items[0], level, next, k);
      LineClears(level, Emit(items[0], level, next), k);
      ClearsChain(next, tail, rest, k);
      ClearsChain(Emit(items[0], level, next), next, rest, k);
      ClearsChain(EmitItems(items, level, rest), Emit(items[0], level, next), rest, k);
    }
  }

  lemma {:induction false} MembersClear(members: seq<Member>, level: nat, rest: string, k: string)
    requires PlainKey(k) && MembersOk(members) && MemberHits(members, k) == [] && Delimited(rest)
    ensures Clears(EmitMembers(members, level, rest), rest, k)
    decreases members, 0
  {
    hide Clears, Quoted, NumberText, Clashes;
    if members == [] {
      ClearsNothing(rest, k);
    } else {
      var value := members[0].value;
      var tail := EmitMembers(members[1..], level, rest);
      var next := After(|members|, tail);
      var field := Emit(value, level, next);
      MembersClear(members[1..], level, rest, k);
      AfterClears(|members|, tail, k);
      EmitClears(value, level, next, k);
      ClearsPlain(": ", field, k);
      TokenIsClear(members[0].key, k, ": " + field);
      LineClears(level, Quoted(members[0].key, ": " + field), k);
      ClearsChain(next, tail, rest, k);
      ClearsChain(field, next, rest, k);
      ClearsChain(": " + field, field, rest, k);
      ClearsChain(Quoted(members[0].key, ": " + field), ": " + field, rest, k);
      ClearsChain(EmitMembers(members, level, rest), Quoted(members[0].key, ": " + field), rest, k);
    }
  }

  /** Where a hit leads: for a field, to the text of its value. */
  datatype Landing = Landing(after: string, level: nat, rest: string)

  ghost predicate Leads(hit: Hit, land: Landing) {
    hit.Field? ==> land.after == ": " + Emit(hit.value, land.level, land.rest) && Delimited(land.rest)
  }

  /** The first occurrence in the text of a value is that of its first hit. */
  lemma {:induction false} FirstHit(j: Json, level: nat, rest: string, k: string) returns (land: Landing)
    requires PlainKey(k) && NumbersOk(j) && Hits(j, k) != [] && Delimited(rest)
    ensures Clears(Emit(j, level, rest), Needle(k) + land.after, k) && Leads(Hits(j, k)[0], land)
    decreases j, 1
  {
    hide Clears, Quoted, NumberText, Clashes;
    match j {
      case Str(s) =>
        TokenHit(s, k, rest);
        land := Landing(rest, 0, "");
      case Arr(items) =>
        var close := "\n" + (Indent(level) + ("]" + rest));
        land := FirstItemHit(items, level + 1, close, k);
        ClearsPlain("[", EmitItems(items, level + 1, close), k);
        ClearsChain(Emit(j, level, rest), EmitItems(items, level + 1, close), Needle(k) + land.after, k);
      case Obj(members) =>
        var close := "\n" + (Indent(level) + ("}" + rest));
        land := FirstMemberHit(members, level + 1, close, k);
        ClearsPlain("{", EmitMembers(members, level + 1, close), k);
        ClearsChain(Emit(j, level, rest), EmitMembers(members, level + 1, close), Needle(k) + land.after, k);
    }
  }

  lemma {:induction false} FirstItemHit(items: seq<Json>, level: nat, rest: string, k: string) returns (land: Landing)
    requires PlainKey(k) && (forall i :: 0 <= i < |items| ==> NumbersOk(items[i]))
    requires ItemHits(items, k) != [] && Delimited(rest)
    ensures Clears(EmitItems(items, level, rest), Needle(k) + land.after, k) && Leads(ItemHits(items, k)[0], land)
    decreases items, 0
  {
    hide Clears, Quoted, NumberText, Clashes;
    var tail := EmitItems(items[1..], level, rest);
    var next := After(|items|, tail);
    var item := Emit(items[0], level, next);
    LineClears(level, item, k);
    if Hits(items[0], k) != [] {
      land := FirstHit(items[0], level, next, k);
    } else {
      land := FirstItemHit(items[1..], level, rest, k);
      EmitClears(items[0], level, next, k);
      AfterClears(|items|, tail, k);
      ClearsChain(next, tail, Needle(k) + land.after, k);
      ClearsChain(item, next, Needle(k) + land.after, k);
    }
    ClearsChain(EmitItems(items, level, rest), item, Needle(k) + land.after, k);
  }

  lemma {:induction false} FirstMemberHit(members: seq<Member>, level: nat, rest: string, k: string)
    returns (land: Landing)
    requires PlainKey(k) && MembersOk(members) && MemberHits(members, k) != [] && Delimited(rest)
    ensures Clears(EmitMembers(members, level, rest), Needle(k) + land.after, k)
    ensures Leads(MemberHits(members, k)[0], land)
    decreases members, 0
  {
    hide Clears, Quoted, NumberText, Clashes;
    var value := members[0].value;
    var tail := EmitMembers(members[1..], level, rest);
    var next := After(|members|, tail);
    var field := Emit(value, level, next);
    var line := Quoted(members[0].key, ": " + field);
    LineClears(level, line, k);
    if Clashes(members[0].key, k) {
      TokenHit(members[0].key, k, ": " + field);
      land := Landing(": " + field, level, next);
    } else {
      TokenIsClear(members[0].key, k, ": " + field);
      ClearsPlain(": ", field, k);
      if Hits(value, k) != [] {
        land := FirstHit(value, level, next, k);
      } else {
        land := FirstMemberHit(members[1..], level, rest, k);
        EmitClears(value, level, next, k);
        AfterClears(|members|, tail, k);
        ClearsChain(next, tail, Needle(k) + land.after, k);
        ClearsChain(field, next, Needle(k) + land.after, k);
      }
      ClearsChain(": " + field, field, Needle(k) + land.after, k);
      ClearsChain(line, ": " + field, Needle(k) + land.after, k);
    }
    ClearsChain(EmitMembers(members, level, rest), line, Needle(k) + land.after, k);
  }
}
