/** Indentation in the YAML subset: the parser never refuses it (config/yaml.cpp). */
module YamlIndents {
  import opened Text
  import opened Yaml
  import opened YamlPrinting

  function Dedented(line: string): string { if line != "" && line[0] == ' ' then Dedented(line[1..]) else line }

  lemma {:induction false} LeadingSpacesFrom(line: string, n: nat)
    requires n < |line|
    ensures LeadingSpaces(line, n + 1).None? <==> LeadingSpaces(line[1..], n).None?
    decreases |line| - n
  {
    if n + 1 < |line| && line[n + 1] == ' ' {
      LeadingSpacesFrom(line, n + 1);
    }
  }

  /** A space in front of a line makes it neither good nor bad. */
  lemma SpaceInFront(line: string)
    requires line != "" && line[0] == ' '
    ensures IsBad(line) <==> IsBad(line[1..])
    ensures IsBad(line) ==> (ReadLine(line).Tab? <==> ReadLine(line[1..]).Tab?)
  {
    LeadingSpacesFrom(line, 0);
    assert Uncommented(line, NO_QUOTES)[1..] == Uncommented(line[1..], NO_QUOTES);
  }

  lemma {:induction false} DedentedIsAsBad(line: string)
    ensures IsBad(line) <==> IsBad(Dedented(line))
    ensures IsBad(line) ==> (ReadLine(line).Tab? <==> ReadLine(Dedented(line)).Tab?)
  {
    hide ReadLine, IsBad;
    if line != "" && line[0] == ' ' {
      SpaceInFront(line);
      DedentedIsAsBad(line[1..]);
    }
  }

  /** No indentation is an error: lines that differ only in the spaces in front of them fail alike. */
  lemma {:induction false} IndentationIsNoError(a: seq<string>, b: seq<string>, stack: seq<Frame>, number: nat)
    requires |a| == |b| && (forall i :: 0 <= i < |a| ==> Dedented(a[i]) == Dedented(b[i])) && stack != []
    ensures match StepLines(stack, a, number)
            case Ok(_) => StepLines(stack, b, number).Ok?
            case Err(e) => StepLines(stack, b, number) == Err(e)
  {
    hide ReadLine, StepLines;
    FailsAtTheFirstBadLine(stack, a, number);
    FailsAtTheFirstBadLine(stack, b, number);
    forall i | 0 <= i < |a|
      ensures IsBad(a[i]) <==> IsBad(b[i])
      ensures IsBad(a[i]) ==> (ReadLine(a[i]).Tab? <==> ReadLine(b[i]).Tab?)
    {
      DedentedIsAsBad(a[i]);
      DedentedIsAsBad(b[i]);
    }
  }

  /** A name and an unquoted value without blanks at its ends. */
  lemma PlainLeafReads(indent: nat, key: string, value: string)
    requires PlainName(key) && key != "" && Markless(value) && value != ""
    requires !IsLineSpace(value[0]) && !IsLineSpace(value[|value| - 1])
    ensures ReadLine(Spaces(indent) + (key + ":" + (" " + value))) == Entry(indent, key, Some(value))
  {
    hide ReadContent;
    var rest := key + ":" + (" " + value);
    var line := Spaces(indent) + rest;
    LeadingOfSpaces(indent, rest, 0);
    UncommentedMarkless(line, "", NO_QUOTES);
    assert line + "" == line;
    TrimLeftSpaces(indent, rest);
    TrimRightDone(rest);
    ContentReads(indent, key, " " + value);
    assert (" " + value)[1..] == value;
  }

  const UNEVEN := ["a:", "    b: 1", "  c: 2"]

  lemma UnevenLines()
    ensures ReadLine(UNEVEN[0]) == Entry(0, "a", None)
    ensures ReadLine(UNEVEN[1]) == Entry(4, "b", Some("1"))
    ensures ReadLine(UNEVEN[2]) == Entry(2, "c", Some("2"))
  {
    hide ReadLine;
    assert Spaces(1) == " " && Spaces(2) == "  " && Spaces(3) == "   " && Spaces(4) == "    ";
    BranchLineReads(0, "a");
    PlainLeafReads(4, "b", "1");
    PlainLeafReads(2, "c", "2");
    assert UNEVEN[0] == Spaces(0) + ("a" + ":");
    assert UNEVEN[1] == Spaces(4) + ("b" + ":" + (" " + "1"));
    assert UNEVEN[2] == Spaces(2) + ("c" + ":" + (" " + "2"));
  }

  lemma UnevenSteps(lines: seq<string>)
    requires |lines| == 3 && ReadLine(lines[0]) == Entry(0, "a", None)
    requires ReadLine(lines[1]) == Entry(4, "b", Some("1")) && ReadLine(lines[2]) == Entry(2, "c", Some("2"))
    ensures StepLines([ROOT], lines, 1) == Ok([ROOT, Frame(0, "a", map["b" := Scalar("1"), "c" := Scalar("2")])])
  {
    hide ReadLine;
    var a := [ROOT, Frame(0, "a", map[])];
    var b := [ROOT, Frame(0, "a", map["b" := Scalar("1")])];
    var c := [ROOT, Frame(0, "a", map["b" := Scalar("1"), "c" := Scalar("2")])];
    assert Enter([ROOT], 0, "a", None) == a;
    assert a[..1] == [ROOT] && Enter(a, 4, "b", Some("1")) == b;
    assert b[1].entries["c" := Scalar("2")] == c[1].entries;
    assert b[..1] == [ROOT] && Enter(b, 2, "c", Some("2")) == c;
    StepLinesOne(b, lines[2], 3, c);
    assert lines[1..][0] == lines[1] && lines[1..][1..] == [lines[2]];
    assert StepLines(a, lines[1..], 2) == Ok(c);
  }

  /** Two entries of one mapping, the second less indented than the first: the text parses. */
  lemma UnevenIndentsParse()
    ensures Parse("a:\n    b: 1\n  c: 2\n")
         == Ok(Mapping(map["a" := Mapping(map["b" := Scalar("1"), "c" := Scalar("2")])]))
  {
    hide ReadLine, Lines, StepLines;
    var text := "a:\n    b: 1\n  c: 2\n";
    LinesOfUnlines(UNEVEN);
    UnevenLines();
    UnevenSteps(UNEVEN);
    assert Unlines(UNEVEN) == text;
    assert Lines(text) == UNEVEN;
    var a := Frame(0, "a", map["b" := Scalar("1"), "c" := Scalar("2")]);
    assert StepLines([ROOT], UNEVEN, 1) == Ok([ROOT, a]);
    assert Closed([ROOT, a]) == [ROOT.(entries := map["a" := Mapping(a.entries)])];
    assert Settle([ROOT, a], 0)[0].entries == map["a" := Mapping(a.entries)];
  }
}
