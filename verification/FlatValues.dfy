/** The flat reader's results on a whole document. */
module FlatValues {
  import opened Numbers
  import opened Text
  import opened JsonText
  import opened FlatReader
  import opened FlatReading

  // ----- Finding the first occurrence -------------------------------------------------------

  lemma {:induction false} FindFirst(text: string, k: string, from: nat, at: nat)
    requires from <= at && OccursAt(text, k, at)
    requires forall p: nat :: from <= p < at ==> !OccursAt(text, k, p)
    ensures Find(text, Needle(k), from) == Some(at)
    decreases at - from
  {
    var n := |Needle(k)|;
    assert text[at..][..n] == text[at..at + n];
    if from < at {
      assert text[from..][..n] == text[from..from + n];
      assert !OccursAt(text, k, from);
      FindFirst(text, k, from + 1, at);
    }
  }

  lemma {:induction false} FindNothing(text: string, k: string, from: nat)
    requires from <= |text| && forall p: nat :: from <= p < |text| ==> !OccursAt(text, k, p)
    ensures Find(text, Needle(k), from) == None
    decreases |text| - from
  {
    var n := |Needle(k)|;
    if from + n <= |text| {
      assert text[from..][..n] == text[from..from + n];
      assert !OccursAt(text, k, from);
      FindNothing(text, k, from + 1);
    }
  }

  /** The value of a field whose occurrence is the first starts right after the colon and the blank. */
  lemma LandsOnField(text: string, k: string, field: string)
    requires Clears(text, Needle(k) + (": " + field), k) && field != "" && !IsSpace(field[0])
    ensures |field| < |text| && ValueStart(text, k) == Some(|text| - |field|) && text[|text| - |field|..] == field
  {
    var rest := Needle(k) + (": " + field);
    var at := |text| - |rest|;
    var after := at + |k| + 2;
    assert text[at..] == rest;
    assert rest[..|Needle(k)|] == Needle(k);
    FindFirst(text, k, 0, at);
    assert text[after] == rest[|Needle(k)|] == ':' && text[after + 1] == rest[|Needle(k)| + 1] == ' ';
    assert text[after + 2..] == rest[|Needle(k)| + 2..] == field;
    assert text[after + 2] == field[0];
    assert SkipSpaces(text, after + 1) == SkipSpaces(text, after + 2) == after + 2;
  }

  // ----- What each reader makes of a value ------------------------------------------------------

  lemma NumberFirstChar(n: Number, rest: string)
    requires WellFormedNumber(n)
    ensures NumberText(n, rest) != "" && (NumberText(n, rest)[0] == '-' || IsDigit(NumberText(n, rest)[0]))
  {}

  lemma ValueText(v: Json, level: nat, rest: string)
    requires NumbersOk(v)
    ensures Emit(v, level, rest) != "" && !IsSpace(Emit(v, level, rest)[0])
  {
    if v.Num? { NumberFirstChar(v.n, rest); }
  }

  /** The first hit decides where the reader lands: on that field's value, or nowhere. */
  lemma LandsOnFirstHit(j: Json, k: string) returns (level: nat, rest: string)
    requires PlainKey(k) && NumbersOk(j) && Hits(j, k) != [] && Hits(j, k)[0].Field? && NumbersOk(Hits(j, k)[0].value)
    ensures var text, field := Document(j), Emit(Hits(j, k)[0].value, level, rest);
            |field| < |text| && ValueStart(text, k) == Some(|text| - |field|) && text[|text| - |field|..] == field
    ensures Delimited(rest)
  {
    hide PlainKey, NumbersOk, Hits, Emit, Clears, ValueStart, IsSpace;
    var land := FirstHit(j, 0, "", k);
    level, rest := land.level, land.rest;
    var field := Emit(Hits(j, k)[0].value, level, rest);
    LeadsToField(Hits(j, k)[0], land);
    ValueText(Hits(j, k)[0].value, level, rest);
    LandsOnField(Document(j), k, field);
  }

  /** A field's landing is the colon, the blank and the text of its value. */
  lemma LeadsToField(hit: Hit, land: Landing)
    requires hit.Field? && Leads(hit, land)
    ensures land.after == ": " + Emit(hit.value, land.level, land.rest) && Delimited(land.rest)
  {}

  /** Without a hit the reader finds nothing and keeps its default. */
  lemma MissesWithoutHit(j: Json, k: string)
    requires PlainKey(k) && NumbersOk(j) && Hits(j, k) == []
    ensures ValueStart(Document(j), k) == None
    ensures forall d :: GetBool(Document(j), k, d) == d
    ensures forall d :: GetString(Document(j), k, d) == d
    ensures forall d :: GetNumber(Document(j), k, d) == d
  {
    EmitClears(j, 0, "", k);
    FindNothing(Document(j), k, 0);
  }

  /** `GetBool` once the value's text is known. */
  lemma BoolAt(text: string, k: string, field: string, default: bool)
    requires field != "" && |field| < |text| && text[|text| - |field|..] == field
    requires ValueStart(text, k) == Some(|text| - |field|)
    ensures StartsWith(field, "true") ==> GetBool(text, k, default)
    ensures StartsWith(field, "false") ==> !GetBool(text, k, default)
    ensures field[0] == '"' ==> GetBool(text, k, default) == default
  {
    hide ValueStart;
    assert text[|text| - |field|] == field[0];
    StartsWithStep(field, "true");
    StartsWithStep(field, "false");
  }

  lemma ReadsBool(j: Json, k: string, b: bool, default: bool)
    requires PlainKey(k) && NumbersOk(j) && Hits(j, k) != [] && Hits(j, k)[0] == Field(Bool(b))
    ensures GetBool(Document(j), k, default) == b
  {
    hide GetBool, Document, Hits, ValueStart, NumbersOk;
    assert NumbersOk(Bool(b)) by { BoolsHaveNoNumbers(b); }
    var level, rest := LandsOnFirstHit(j, k);
    BoolAt(Document(j), k, Emit(Bool(b), level, rest), default);
    if b {
      assert StartsWith("true" + rest, "true");
    } else {
      assert StartsWith("false" + rest, "false");
    }
  }

  lemma BoolsHaveNoNumbers(b: bool)
    ensures NumbersOk(Bool(b))
  {}

  lemma StringsHaveNoNumbers(s: string)
    ensures NumbersOk(Str(s))
  {}

  /** A string value reads as neither true nor false: the boolean reader keeps its default. */
  lemma StringIsNoBool(j: Json, k: string, s: string, default: bool)
    requires PlainKey(k) && NumbersOk(j) && Hits(j, k) != [] && Hits(j, k)[0] == Field(Str(s))
    ensures GetBool(Document(j), k, default) == default
  {
    hide GetBool, Document, Hits, ValueStart, NumbersOk;
    StringsHaveNoNumbers(s);
    var level, rest := LandsOnFirstHit(j, k);
    BoolAt(Document(j), k, Emit(Str(s), level, rest), default);
  }

  lemma {:induction false} FindClosing(text: string, from: nat, at: nat)
    requires from <= at < |text| && text[at] == '"' && forall p :: from <= p < at ==> text[p] != '"'
    ensures FindChar(text, '"', from) == Some(at)
    decreases at - from
  {
    if from < at { FindClosing(text, from + 1, at); }
  }

  /** `GetString` once the value's text is known. */
  lemma StringAt(text: string, k: string, s: string, rest: string, default: string)
    requires var field := "\"" + (s + ("\"" + rest));
             |field| < |text| && text[|text| - |field|..] == field && ValueStart(text, k) == Some(|text| - |field|)
    requires Verbatim(s)
    ensures GetString(text, k, default) == s
  {
    hide ValueStart;
    var field := "\"" + (s + ("\"" + rest));
    var p := |text| - |field|;
    assert forall i :: p <= i < |text| ==> text[i] == field[i - p];
    assert forall i :: 0 <= i < |s| ==> field[1 + i] == s[i];
    FindClosing(text, p + 1, p + 1 + |s|);
    assert text[p + 1..p + 1 + |s|] == s;
  }

  lemma ReadsString(j: Json, k: string, s: string, default: string)
    requires PlainKey(k) && NumbersOk(j) && Hits(j, k) != [] && Hits(j, k)[0] == Field(Str(s)) && Verbatim(s)
    ensures GetString(Document(j), k, default) == s
  {
    hide GetString, Document, Hits, ValueStart, NumbersOk, Verbatim;
    StringsHaveNoNumbers(s);
    var level, rest := LandsOnFirstHit(j, k);
    VerbatimText(s, "\"" + rest);
    StringAt(Document(j), k, s, rest, default);
  }

  // ----- Numbers ----------------------------------------------------------------------------------

  lemma ReadsExponent(e: Option<Exponent>, rest: string)
    requires e.Some? ==> e.value.digits != "" && Digits(e.value.digits)
    requires Delimited(rest)
    ensures ReadExponent(ExponentText(e, rest), 'e') == ExponentValue(e)
    ensures ExponentText(e, rest) != "" ==> !IsDigit(ExponentText(e, rest)[0]) && ExponentText(e, rest)[0] != '.'
  {
    if e.Some? {
      var x := e.value;
      var sign := if x.negative then "-" else "+";
      var text := ExponentText(e, rest);
      var body := x.digits + rest;
      assert text[1..] == sign + body && (sign + body)[1..] == body;
      LeadingOf(x.digits, rest);
    }
  }

  lemma ReadsUnsigned(n: Number, tail: string)
    requires WellFormedNumber(n)
    requires tail != "" ==> !IsDigit(tail[0]) && tail[0] != '.'
    ensures ReadUnsigned(n.negative, n.whole + ((if n.fraction == "" then "" else "." + n.fraction) + tail))
         == Some(Combine(n.negative, n.whole, n.fraction, ReadExponent(tail, 'e')))
  {
    hide ReadExponent, Combine;
    var pointed := (if n.fraction == "" then "" else "." + n.fraction) + tail;
    var body := n.whole + pointed;
    LeadingOf(n.whole, pointed);
    assert body[|n.whole|..] == pointed;
    if n.fraction != "" {
      assert pointed[1..] == n.fraction + tail;
      LeadingOf(n.fraction, tail);
      assert pointed[1 + |n.fraction|..] == tail;
    } else {
      assert pointed == tail;
    }
  }

  /** A written numeral is not hexadecimal. */
  lemma NoHexText(n: Number, rest: string)
    requires WellFormedNumber(n) && Delimited(rest)
    ensures !IsHexText(n.whole + ((if n.fraction == "" then "" else "." + n.fraction) + ExponentText(n.exponent, rest)))
  {
    var tail := (if n.fraction == "" then "" else "." + n.fraction) + ExponentText(n.exponent, rest);
    var body := n.whole + tail;
    if |body| >= 2 {
      assert body[1] == if |n.whole| > 1 then n.whole[1] else tail[0];
    }
  }

  lemma ReadsFinite(n: Number, rest: string)
    requires WellFormedNumber(n) && Delimited(rest)
    ensures ReadFinite(n.negative, n.whole + ((if n.fraction == "" then "" else "." + n.fraction)
                                              + ExponentText(n.exponent, rest)))
         == Some(NumberValue(n))
  {
    hide ReadUnsigned, Combine, ReadExponent, IsHexText, ReadHex;
    NoHexText(n, rest);
    ReadsExponent(n.exponent, rest);
    ReadsUnsigned(n, ExponentText(n.exponent, rest));
  }

  /** A written numeral reads as its value, unless `stod` throws. */
  lemma ReadsText(n: Number, rest: string)
    requires WellFormedNumber(n) && Delimited(rest)
    ensures ReadNumber(NumberText(n, rest))
         == if BeyondDouble(NumberValue(n)) then None else Some(Real(NumberValue(n)))
  {
    hide ReadFinite, NumberValue, ExponentText, BeyondDouble;
    var body := n.whole + ((if n.fraction == "" then "" else "." + n.fraction) + ExponentText(n.exponent, rest));
    ReadsFinite(n, rest);
    assert body[0] == n.whole[0];
    if n.negative {
      assert ("-" + body)[1..] == body;
    } else {
      assert "" + body == body;
    }
  }

  lemma ReadsNumber(j: Json, k: string, n: Number, default: Double)
    requires PlainKey(k) && NumbersOk(j) && WellFormedNumber(n)
    requires Hits(j, k) != [] && Hits(j, k)[0] == Field(Num(n))
    ensures GetNumber(Document(j), k, default) == if BeyondDouble(NumberValue(n)) then default else Real(NumberValue(n))
  {
    hide Document, Hits, ValueStart, ReadNumber, NumberText, NumberValue, BeyondDouble;
    var level, rest := LandsOnFirstHit(j, k);
    ReadsText(n, rest);
    assert Emit(Num(n), level, rest) == NumberText(n, rest);
  }
}
