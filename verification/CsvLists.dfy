/** Comma-separated lists in scalars, for any text: the fields between the commas, trimmed, without the
    empty ones (config/yaml.cpp). */
module CsvLists {
  import opened Text
  import opened Yaml
  import opened YamlPrinting
  import opened YamlComments

  predicate NoEdges(t: string) {
    t != "" && t[0] != ' ' && t[0] != '\t' && t[|t| - 1] != ' ' && t[|t| - 1] != '\t'
  }

  /** What a field gives: nothing when it is blank, else what stands between its blanks. */
  ghost predicate FieldGives(field: string, tokens: seq<string>) {
    || (Blanks(field) && tokens == [])
    || exists left, t, right ::
         field == left + (t + right) && Blanks(left) && Blanks(right) && NoEdges(t) && tokens == [t]
  }

  lemma {:induction false} LeftBlanks(s: string) returns (left: string)
    ensures Blanks(left) && s == left + TrimLeft(s, IsBlank)
    ensures TrimLeft(s, IsBlank) == "" || !IsBlank(TrimLeft(s, IsBlank)[0])
  {
    left := "";
    if s != "" && IsBlank(s[0]) {
      var more := LeftBlanks(s[1..]);
      left := [s[0]] + more;
      assert s == [s[0]] + s[1..];
    }
  }

  lemma {:induction false} RightBlanks(s: string) returns (right: string)
    ensures Blanks(right) && s == TrimRight(s, IsBlank) + right
    ensures TrimRight(s, IsBlank) == "" || !IsBlank(TrimRight(s, IsBlank)[|TrimRight(s, IsBlank)| - 1])
  {
    right := "";
    if s != "" && IsBlank(s[|s| - 1]) {
      var more := RightBlanks(s[..|s| - 1]);
      right := more + [s[|s| - 1]];
      assert s == s[..|s| - 1] + [s[|s| - 1]];
    }
  }

  lemma TokenIs(field: string)
    ensures FieldGives(field, Token(field))
  {
    var left := LeftBlanks(field);
    var middle := TrimLeft(field, IsBlank);
    var right := RightBlanks(middle);
    var t := TrimRight(middle, IsBlank);
    if t == "" {
      assert field == left + right;
    } else {
      assert t[0] == middle[0];
      assert field == left + (t + right);
    }
  }

  function Concatenated(tokens: seq<seq<string>>): seq<string> {
    if tokens == [] then [] else tokens[0] + Concatenated(tokens[1..])
  }

  /** What each field gives. */
  ghost predicate FieldsGive(fields: seq<string>, tokens: seq<seq<string>>) {
    |tokens| == |fields| && forall i :: 0 <= i < |fields| ==> FieldGives(fields[i], tokens[i])
  }

  predicate Commaless(fields: seq<string>) { forall i :: 0 <= i < |fields| ==> Without(fields[i], ',') }

  /** The loop over the commas gives what the fields give, one after the other. */
  lemma {:induction false} SplitsFields(front: string, fields: seq<string>) returns (tokens: seq<seq<string>>)
    requires fields != [] && Commaless(fields)
    ensures FieldsGive(fields, tokens) && SplitCsv(front + Joined(fields), |front|) == Concatenated(tokens)
    decreases |fields|
  {
    hide Token, FieldGives, Without;
    TokenIs(fields[0]);
    if |fields| == 1 {
      CommaNowhere(fields[0]);
      LastToken(front, fields[0]);
      tokens := [Token(fields[0])];
      assert tokens[1..] == [] && Token(fields[0]) + [] == Token(fields[0]);
    } else {
      var rest := Joined(fields[1..]);
      assert Joined(fields) == fields[0] + [','] + rest;
      CommaNowhere(fields[0]);
      FirstToken(front, fields[0], rest);
      var more := SplitsFields(front + fields[0] + [','], fields[1..]);
      tokens := [Token(fields[0])] + more;
      assert tokens[1..] == more;
    }
  }

  lemma CommaNowhere(field: string)
    requires Without(field, ',')
    ensures FindChar(field, ',', 0) == None && forall i :: 0 <= i < |field| ==> field[i] != ','
  {
    FindNone(field, ',', 0);
  }

  /** Every text is a list of fields with commas between them. */
  lemma {:induction false} FieldsOf(s: string) returns (fields: seq<string>)
    ensures fields != [] && Commaless(fields) && Joined(fields) == s
    decreases |s|
  {
    if Without(s, ',') {
      fields := [s];
    } else {
      var n := FirstOf(s, ',');
      var more := FieldsOf(s[n + 1..]);
      fields := [s[..n]] + more;
      assert fields[1..] == more;
      assert s == s[..n] + [','] + s[n + 1..];
    }
  }

  /** Any text splits into what its fields give. */
  lemma AnyTextSplits(s: string) returns (fields: seq<string>, tokens: seq<seq<string>>)
    ensures fields != [] && Commaless(fields) && Joined(fields) == s
    ensures FieldsGive(fields, tokens) && SplitCsv(s, 0) == Concatenated(tokens)
  {
    fields := FieldsOf(s);
    tokens := SplitsFields("", fields);
    assert "" + s == s;
  }
}
