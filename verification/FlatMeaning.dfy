/** What the flat reader returns for any text at all: where it looks, and what each kind of value there
    reads as (core/bridge_client.cpp). */
module FlatMeaning {
  import opened Numbers
  import opened Text
  import opened FlatReader

  // ----- Where it looks ------------------------------------------------------------------------------

  predicate Blank(c: char) {
    c == ' ' || c == '\t' || c == '\n' || c == '\r' || c as int == 11 || c as int == 12
  }

  predicate Blanks(s: string) { forall i :: 0 <= i < |s| ==> Blank(s[i]) }

  predicate Lacks(s: string, c: char) { forall i :: 0 <= i < |s| ==> s[i] != c }

  predicate StandsAt(text: string, word: string, p: int) {
    0 <= p && p + |word| <= |text| && text[p..p + |word|] == word
  }

  /** `rest` is what follows the first quoted key, the next colon and the blanks behind it. */
  ghost predicate Leads(text: string, key: string, rest: string) {
    exists at: nat, colon: nat :: FollowsColon(text, "\"" + key + "\"", at, colon, rest)
  }

  predicate FollowsColon(text: string, word: string, at: nat, colon: nat, rest: string) {
    && StandsAt(text, word, at) && (forall p :: 0 <= p < at ==> !StandsAt(text, word, p))
    && at + |word| <= colon < |text| && text[colon] == ':' && Lacks(text[at + |word|..colon], ':')
    && colon + |rest| < |text| && text[|text| - |rest|..] == rest
    && Blanks(text[colon + 1..|text| - |rest|]) && (rest == "" || !Blank(rest[0]))
  }

  lemma {:induction false} FindIsFirst(text: string, word: string, from: nat)
    ensures match Find(text, word, from)
            case None => forall p :: from <= p ==> !StandsAt(text, word, p)
            case Some(p) => StandsAt(text, word, p) && forall q :: from <= q < p ==> !StandsAt(text, word, q)
    decreases |text| - from
  {
    if from + |word| <= |text| && text[from..from + |word|] != word && from < |text| {
      FindIsFirst(text, word, from + 1);
    }
  }

  lemma {:induction false} FindCharIsFirst(s: string, c: char, from: nat)
    ensures match FindChar(s, c, from)
            case None => forall p :: from <= p < |s| ==> s[p] != c
            case Some(p) => p < |s| && s[p] == c && forall q :: from <= q < p ==> s[q] != c
    decreases |s| - from
  {
    if from < |s| && s[from] != c { FindCharIsFirst(s, c, from + 1); }
  }

  lemma {:induction false} SkipsBlanks(text: string, p: nat)
    requires p <= |text|
    ensures var q := SkipSpaces(text, p);
            p <= q <= |text| && Blanks(text[p..q]) && (q == |text| || !Blank(text[q]))
    decreases |text| - p
  {
    if p < |text| && IsSpace(text[p]) {
      SkipsBlanks(text, p + 1);
      var q := SkipSpaces(text, p + 1);
      assert text[p..q] == [text[p]] + text[p + 1..q];
    }
  }

  lemma {:induction false} SkipsTo(text: string, p: nat, q: nat)
    requires p <= q <= |text| && Blanks(text[p..q]) && (q == |text| || !Blank(text[q]))
    ensures SkipSpaces(text, p) == q
    decreases q - p
  {
    if p < q {
      assert text[p] == text[p..q][0];
      assert text[p + 1..q] == text[p..q][1..];
      SkipsTo(text, p + 1, q);
    }
  }

  /** The reader looks exactly where the text leads. */
  lemma StartLeads(text: string, key: string)
    ensures ValueStart(text, key).Some? ==>
              ValueStart(text, key).value <= |text| && Leads(text, key, text[ValueStart(text, key).value..])
  {
    hide Find, FindChar, SkipSpaces, StandsAt, Blanks, Blank, Lacks;
    var word := Needle(key);
    FindIsFirst(text, word, 0);
    if Find(text, word, 0).Some? {
      var p := Find(text, word, 0).value;
      assert p + |word| <= |text| by { Fits(text, word, p); }
      FindCharIsFirst(text, ':', p + |word|);
      if FindChar(text, ':', p + |word|).Some? {
        var q := FindChar(text, ':', p + |word|).value;
        NoneBefore(text, p + |word|, q, ':');
        SkipsBlanks(text, q + 1);
        var r := SkipSpaces(text, q + 1);
        assert r < |text| ==> text[r..][0] == text[r];
        assert FollowsColon(text, word, p, q, text[r..]);
      }
    }
  }

  lemma Fits(text: string, word: string, p: nat)
    requires StandsAt(text, word, p)
    ensures p + |word| <= |text|
  {}

  lemma NoneBefore(text: string, from: nat, at: nat, c: char)
    requires from <= at <= |text| && forall i :: from <= i < at ==> text[i] != c
    ensures Lacks(text[from..at], c)
  {}

  lemma LeadsIsStart(text: string, key: string, rest: string)
    requires Leads(text, key, rest)
    ensures |rest| <= |text| && ValueStart(text, key) == Some(|text| - |rest|) && text[|text| - |rest|..] == rest
  {
    hide StandsAt, Blanks, Blank, Lacks, Find, FindChar, SkipSpaces;
    var word := "\"" + key + "\"";
    var at: nat, colon: nat :| FollowsColon(text, word, at, colon, rest);
    FirstWord(text, word, at);
    FirstChar(text, at + |word|, colon, ':');
    assert rest != "" ==> text[|text| - |rest|] == rest[0];
    SkipsTo(text, colon + 1, |text| - |rest|);
  }

  lemma FirstWord(text: string, word: string, at: nat)
    requires StandsAt(text, word, at) && forall p :: 0 <= p < at ==> !StandsAt(text, word, p)
    ensures Find(text, word, 0) == Some(at)
  {
    hide StandsAt;
    FindIsFirst(text, word, 0);
  }

  lemma {:induction false} FirstChar(text: string, from: nat, at: nat, c: char)
    requires from <= at < |text| && text[at] == c && Lacks(text[from..at], c)
    ensures FindChar(text, c, from) == Some(at)
    decreases at - from
  {
    if from < at {
      assert text[from] == text[from..at][0] && text[from + 1..at] == text[from..at][1..];
      FirstChar(text, from + 1, at, c);
    }
  }

  // ----- What it makes of the value there --------------------------------------------------------------

  predicate Starts(s: string, word: string) { |word| <= |s| && s[..|word|] == word }

  predicate SaysYes(rest: string) { Starts(rest, "true") || Starts(rest, "1") }
  predicate SaysNo(rest: string) { Starts(rest, "false") || Starts(rest, "0") }

  /** A boolean is what the text there says; the default stands when it says neither or there is none. */
  lemma BoolMeans(text: string, key: string, default: bool)
    ensures forall rest :: Leads(text, key, rest) ==>
              GetBool(text, key, default) == if SaysYes(rest) then true else if SaysNo(rest) then false else default
    ensures (forall rest :: !Leads(text, key, rest)) ==> GetBool(text, key, default) == default
  {
    hide ValueStart, Leads;
    StartLeads(text, key);
    forall rest | Leads(text, key, rest)
      ensures GetBool(text, key, default) == if SaysYes(rest) then true else if SaysNo(rest) then false else default
    {
      LeadsIsStart(text, key, rest);
      assert rest != "" ==> rest[..1] == [rest[0]] && text[|text| - |rest|] == rest[0];
    }
  }

  /** The text between the quotes at the value. */
  predicate Quotes(rest: string, v: string) {
    Lacks(v, '"') && |v| + 2 <= |rest| && rest[0] == '"' && rest[1..|v| + 1] == v && rest[|v| + 1] == '"'
  }

  lemma StringMeans(text: string, key: string, default: string)
    ensures forall rest, v :: Leads(text, key, rest) && Quotes(rest, v) ==> GetString(text, key, default) == v
    ensures (forall rest, v :: !(Leads(text, key, rest) && Quotes(rest, v))) ==> GetString(text, key, default) == default
  {
    hide ValueStart, Leads;
    StartLeads(text, key);
    forall rest, v | Leads(text, key, rest) && Quotes(rest, v)
      ensures GetString(text, key, default) == v
    {
      LeadsIsStart(text, key, rest);
      QuoteEnds(text, |text| - |rest|, rest, v);
    }
    if ValueStart(text, key).Some? {
      var p := ValueStart(text, key).value;
      FindCharIsFirst(text, '"', p + 1);
      if p < |text| && text[p] == '"' && FindChar(text, '"', p + 1).Some? {
        var end := FindChar(text, '"', p + 1).value;
        QuotesHere(text, p, end);
      }
    }
  }

  lemma QuoteEnds(text: string, p: nat, rest: string, v: string)
    requires p <= |text| && text[p..] == rest && Quotes(rest, v)
    ensures p < |text| && text[p] == '"' && FindChar(text, '"', p + 1) == Some(p + 1 + |v|)
    ensures p + 1 + |v| <= |text| && text[p + 1..p + 1 + |v|] == v
  {
    hide FindChar, Lacks;
    assert text[p + 1..p + 1 + |v|] == text[p..][1..|v| + 1] == v;
    assert text[p] == text[p..][0] && text[p + 1 + |v|] == text[p..][|v| + 1];
    FirstChar(text, p + 1, p + 1 + |v|, '"');
  }

  lemma QuotesHere(text: string, p: nat, end: nat)
    requires p < end < |text| && text[p] == '"' && text[end] == '"' && forall q :: p + 1 <= q < end ==> text[q] != '"'
    ensures Quotes(text[p..], text[p + 1..end])
  {}

  lemma NumberMeans(text: string, key: string, default: Double)
    ensures forall rest :: Leads(text, key, rest) ==>
              GetNumber(text, key, default) == match ReadNumber(rest) case None => default case Some(x) => x
    ensures (forall rest :: !Leads(text, key, rest)) ==> GetNumber(text, key, default) == default
  {
    hide ValueStart, Leads, ReadNumber;
    StartLeads(text, key);
    forall rest | Leads(text, key, rest)
      ensures GetNumber(text, key, default) == match ReadNumber(rest) case None => default case Some(x) => x
    {
      LeadsIsStart(text, key, rest);
    }
  }
}
