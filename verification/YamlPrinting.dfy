/** A printer for the subset, and that parsing undoes it. */
module YamlPrinting {
  import opened Text
  import opened Yaml

  /** An entry to print: a quoted scalar, or a mapping whose entries are indented `step` further. */
  datatype Item = Leaf(key: string, quote: Quote, text: string) | Branch(key: string, step: nat, items: seq<Item>)
  datatype Quote = Single | Double

  function Mark(q: Quote): char { if q.Single? then '\'' else '"' }

  function Inside(q: Quote): Quotes { Quotes(q.Single?, q.Double?) }

  function Spaces(n: nat): (s: string)
    ensures |s| == n && forall i :: 0 <= i < n ==> s[i] == ' '
  {
    if n == 0 then "" else " " + Spaces(n - 1)
  }

  function LeafText(key: string, q: Quote, text: string): string { key + ": " + [Mark(q)] + text + [Mark(q)] }

  function PrintItem(item: Item, indent: nat): seq<string>
    decreases item, 0
  {
    match item
    case Leaf(key, q, text) => [Spaces(indent) + LeafText(key, q, text)]
    case Branch(key, step, items) => [Spaces(indent) + (key + ":")] + PrintItems(items, indent + step)
  }

  function PrintItems(items: seq<Item>, indent: nat): seq<string>
    decreases items, 1
  {
    if items == [] then [] else PrintItem(items[0], indent) + PrintItems(items[1..], indent)
  }

  function Unlines(lines: seq<string>): string {
    if lines == [] then "" else lines[0] + "\n" + Unlines(lines[1..])
  }

  function Print(items: seq<Item>): string { Unlines(PrintItems(items, 0)) }

  // ----- The tree the entries stand for --------------------------------------------------------

  function TreeOf(item: Item): Tree
    decreases item, 0
  {
    match item
    case Leaf(_, _, text) => Scalar(text)
    case Branch(_, _, items) => Mapping(Build(map[], items))
  }

  /** The entries one after the other; a name that comes again takes the later value. */
  function Build(entries: map<string, Tree>, items: seq<Item>): map<string, Tree>
    decreases items, 1
  {
    if items == [] then entries else Build(entries[items[0].key := TreeOf(items[0])], items[1..])
  }

  // ----- What can be printed --------------------------------------------------------------------

  /** Free of colons, comment marks, quotes and line ends, with no blanks outside. */
  predicate PlainName(key: string) {
    && (forall i :: 0 <= i < |key| ==> key[i] != ':' && key[i] != '#' && key[i] != '\'' && key[i] != '"' && key[i] != '\n')
    && (key != "" ==> !IsLineSpace(key[0]) && !IsBlank(key[|key| - 1]))
  }

  /** No comment starts inside the text, read from the given quotes. */
  predicate QuoteSafe(text: string, q: Quotes) {
    text == "" || (!StartsComment(q, text[0]) && QuoteSafe(text[1..], After(q, text[0])))
  }

  predicate OneLine(s: string) { forall i :: 0 <= i < |s| ==> s[i] != '\n' }

  predicate Printable(item: Item) {
    && PlainName(item.key)
    && match item
       case Leaf(_, q, text) => OneLine(text) && QuoteSafe(text, Inside(q))
       case Branch(_, step, items) => step > 0 && forall i :: 0 <= i < |items| ==> Printable(items[i])
  }

  // ----- Reading one printed line ----------------------------------------------------------------

  lemma {:induction false} LeadingOfSpaces(n: nat, rest: string, i: nat)
    requires i <= n && rest != "" && !IsBlank(rest[0])
    ensures LeadingSpaces(Spaces(n) + rest, i) == Some(n)
    decreases n - i
  {
    if i < n { LeadingOfSpaces(n, rest, i + 1); }
  }

  predicate Markless(s: string) { forall i :: 0 <= i < |s| ==> s[i] != '#' && s[i] != '\'' && s[i] != '"' }

  lemma {:induction false} UncommentedMarkless(s: string, rest: string, q: Quotes)
    requires Markless(s)
    ensures Uncommented(s + rest, q) == s + Uncommented(rest, q)
  {
    if s == "" {
      assert s + rest == rest;
    } else {
      assert (s + rest)[1..] == s[1..] + rest;
      UncommentedMarkless(s[1..], rest, q);
      assert s == [s[0]] + s[1..];
      assert [s[0]] + (s[1..] + Uncommented(rest, q)) == s + Uncommented(rest, q);
    }
  }

  /** The text up to the first comment mark outside quotes. */
  function SafePart(text: string, q: Quotes): (r: string)
    ensures |r| <= |text| && r == text[..|r|]
    ensures r == text <==> QuoteSafe(text, q)
    ensures r != text ==> text[|r|] == '#'
  {
    if text == "" || StartsComment(q, text[0]) then ""
    else
      var tail := SafePart(text[1..], After(q, text[0]));
      assert text == [text[0]] + text[1..];
      [text[0]] + tail
  }

  /** A safe text and its closing quote are kept whole; otherwise only the safe part is. */
  lemma {:induction false} UncommentedQuoted(text: string, mark: char, q: Quotes)
    requires mark != '#'
    ensures Uncommented(text + [mark], q) == if QuoteSafe(text, q) then text + [mark] else SafePart(text, q)
  {
    if text == "" {
      assert text + [mark] == [mark] && [mark][1..] == "";
    } else {
      assert (text + [mark])[1..] == text[1..] + [mark] && (text + [mark])[0] == text[0];
      UncommentedQuoted(text[1..], mark, After(q, text[0]));
      assert text == [text[0]] + text[1..];
      assert [text[0]] + (text[1..] + [mark]) == text + [mark];
    }
  }

  lemma {:induction false} TrimLeftSpaces(n: nat, rest: string)
    requires rest != "" && !IsLineSpace(rest[0])
    ensures TrimLeft(Spaces(n) + rest, IsLineSpace) == rest
  {
    if n == 0 {
      assert Spaces(n) + rest == rest;
    } else {
      assert (Spaces(n) + rest)[1..] == Spaces(n - 1) + rest;
      TrimLeftSpaces(n - 1, rest);
    }
  }

  lemma {:induction false} FindAfter(s: string, rest: string, c: char, from: nat)
    requires from <= |s| && forall i :: from <= i < |s| ==> s[i] != c
    ensures FindChar(s + [c] + rest, c, from) == Some(|s|)
    decreases |s| - from
  {
    if from < |s| { FindAfter(s, rest, c, from + 1); }
  }

  lemma {:induction false} FindNone(s: string, c: char, from: nat)
    requires forall i :: from <= i < |s| ==> s[i] != c
    ensures FindChar(s, c, from) == None
    decreases |s| - from
  {
    if from < |s| { FindNone(s, c, from + 1); }
  }

  /** A name, a colon and a value that is trimmed on its right. */
  lemma ContentReads(indent: nat, key: string, value: string)
    requires PlainName(key)
    ensures ReadContent(indent, key + ":" + value)
         == Entry(indent, key, if TrimLeft(value, IsBlank) == "" then None else Some(Unquote(TrimLeft(value, IsBlank))))
  {
    var content := key + ":" + value;
    assert content == key + [':'] + value;
    FindAfter(key, value, ':', 0);
    assert content[..|key|] == key && content[|key| + 1..] == value;
  }

  lemma BranchLineReads(indent: nat, key: string)
    requires PlainName(key)
    ensures ReadLine(Spaces(indent) + (key + ":")) == Entry(indent, key, None)
  {
    hide ReadContent;
    var rest := key + ":";
    var line := Spaces(indent) + rest;
    LeadingOfSpaces(indent, rest, 0);
    UncommentedMarkless(line, "", NO_QUOTES);
    assert line + "" == line;
    TrimLeftSpaces(indent, rest);
    ContentReads(indent, key, "");
    assert rest + "" == rest;
  }

  lemma UnquoteQuoted(q: Quote, text: string)
    ensures Unquote([Mark(q)] + text + [Mark(q)]) == text
  {
    var s := [Mark(q)] + text + [Mark(q)];
    assert s[1..|s| - 1] == text;
  }

  /** What a comment leaves of a quoted text and its closing quote. */
  function Kept(q: Quote, text: string): string {
    if QuoteSafe(text, Inside(q)) then text + [Mark(q)] else SafePart(text, Inside(q))
  }

  lemma UncommentedLeaf(front: string, q: Quote, text: string)
    requires Markless(front)
    ensures Uncommented(front + ([Mark(q)] + (text + [Mark(q)])), NO_QUOTES) == front + ([Mark(q)] + Kept(q, text))
  {
    hide Markless;
    var quoted := [Mark(q)] + (text + [Mark(q)]);
    UncommentedMarkless(front, quoted, NO_QUOTES);
    UncommentedQuoted(text, Mark(q), Inside(q));
    assert quoted[1..] == text + [Mark(q)];
  }

  /** A line of a leaf is its spaces, its name and what is left of the quoted text before a comment. */
  lemma LeafContent(indent: nat, key: string, q: Quote, text: string)
    requires PlainName(key)
    ensures ReadLine(Spaces(indent) + LeafText(key, q, text))
         == ReadContent(indent, TrimRight(key + ": " + ([Mark(q)] + Kept(q, text)), IsLineSpace))
  {
    hide ReadContent, TrimRight, Kept, Uncommented;
    var front := Spaces(indent) + (key + ": ");
    var rest := LeafText(key, q, text);
    var clean := key + ": " + ([Mark(q)] + Kept(q, text));
    LeadingOfSpaces(indent, rest, 0);
    assert Spaces(indent) + rest == front + ([Mark(q)] + (text + [Mark(q)]));
    UncommentedLeaf(front, q, text);
    assert front + ([Mark(q)] + Kept(q, text)) == Spaces(indent) + clean;
    TrimLeftSpaces(indent, clean);
  }

  lemma TrimRightDone(s: string)
    requires s != "" && !IsLineSpace(s[|s| - 1])
    ensures TrimRight(s, IsLineSpace) == s
  {}

  /** A safe text reads back as it is. */
  lemma SafeLeafReads(indent: nat, key: string, q: Quote, text: string)
    requires PlainName(key) && QuoteSafe(text, Inside(q))
    ensures ReadLine(Spaces(indent) + LeafText(key, q, text)) == Entry(indent, key, Some(text))
  {
    hide ReadContent, ReadLine, TrimRight, Unquote;
    LeafContent(indent, key, q, text);
    var quoted := [Mark(q)] + text + [Mark(q)];
    TrimRightDone(key + ": " + ([Mark(q)] + (text + [Mark(q)])));
    assert key + ": " + ([Mark(q)] + (text + [Mark(q)])) == key + ":" + (" " + quoted);
    ContentReads(indent, key, " " + quoted);
    assert (" " + quoted)[1..] == quoted;
    UnquoteQuoted(q, text);
  }

  lemma {:induction false} TrimRightShortens(s: string, blank: char -> bool)
    ensures |TrimRight(s, blank)| <= |s| && TrimRight(s, blank) == s[..|TrimRight(s, blank)|]
    ensures TrimRight(s, blank) == s || blank(s[|TrimRight(s, blank)|])
  {
    if s != "" && blank(s[|s| - 1]) {
      TrimRightShortens(s[..|s| - 1], blank);
    }
  }

  /** Text that keeps its first character past the trimming. */
  lemma TrimRightKeeps(a: string, c: char, b: string)
    requires !IsLineSpace(c)
    ensures TrimRight(a + [c] + b, IsLineSpace) == a + [c] + TrimRight(b, IsLineSpace)
    decreases |b|
  {
    var s := a + [c] + b;
    if b != "" && IsLineSpace(b[|b| - 1]) {
      assert s[..|s| - 1] == a + [c] + b[..|b| - 1];
      TrimRightKeeps(a, c, b[..|b| - 1]);
    }
  }

  lemma {:induction false} ShiftedText(a: char, s: string, b: char)
    requires [a] + s == s + [b]
    ensures a == b
  {
    assert ([a] + s)[0] == a && (s + [b])[|s|] == b;
    if s != "" {
      assert ([a] + s)[1..] == s && (s + [b])[1..] == s[1..] + [b] && (s + [b])[0] == s[0];
      assert [a] + s[1..] == s;
      ShiftedText(a, s[1..], b);
    }
  }

  /** What is left of an unsafe text is never that text. */
  lemma UnsafeValue(q: Quote, text: string, left: string)
    requires !QuoteSafe(text, Inside(q)) && left == TrimRight(SafePart(text, Inside(q)), IsLineSpace)
    ensures Unquote([Mark(q)] + left) != text
  {
    hide QuoteSafe;
    var kept := SafePart(text, Inside(q));
    TrimRightShortens(kept, IsLineSpace);
    assert text[..|kept| + 1] == kept + ['#'];
    if Unquote([Mark(q)] + left) == text {
      assert [Mark(q)] + left == text && left == kept && text == kept + ['#'];
      ShiftedText(Mark(q), kept, '#');
    }
  }

  lemma UnsafeLeafReads(indent: nat, key: string, q: Quote, text: string)
    requires PlainName(key) && !QuoteSafe(text, Inside(q))
    ensures ReadLine(Spaces(indent) + LeafText(key, q, text)) != Entry(indent, key, Some(text))
  {
    hide ReadContent, ReadLine, QuoteSafe, SafePart, TrimRight, Unquote;
    LeafContent(indent, key, q, text);
    var kept := SafePart(text, Inside(q));
    var left := TrimRight(kept, IsLineSpace);
    var value := [Mark(q)] + left;
    assert key + ": " + ([Mark(q)] + kept) == key + ": " + [Mark(q)] + kept;
    TrimRightKeeps(key + ": ", Mark(q), kept);
    assert key + ": " + [Mark(q)] + left == key + ":" + (" " + value);
    ContentReads(indent, key, " " + value);
    assert (" " + value)[1..] == value;
    UnsafeValue(q, text, left);
  }

  /** A quoted scalar reads back exactly when no comment starts inside it. */
  lemma LeafReadsBackIffSafe(indent: nat, key: string, q: Quote, text: string)
    requires PlainName(key)
    ensures ReadLine(Spaces(indent) + LeafText(key, q, text)) == Entry(indent, key, Some(text))
       <==> QuoteSafe(text, Inside(q))
  {
    hide QuoteSafe, ReadLine;
    if QuoteSafe(text, Inside(q)) {
      SafeLeafReads(indent, key, q, text);
    } else {
      UnsafeLeafReads(indent, key, q, text);
    }
  }

  // ----- Reading the lines of many entries ---------------------------------------------------------

  lemma {:induction false} SettleTwice(stack: seq<Frame>, high: int, low: int)
    requires stack != [] && low <= high
    ensures Settle(Settle(stack, high), low) == Settle(stack, low)
    decreases |stack|
  {
    if |stack| > 1 && high <= stack[|stack| - 1].indent {
      SettleTwice(Closed(stack), high, low);
    }
  }

  lemma {:induction false} StepLinesJoin(stack: seq<Frame>, a: seq<string>, b: seq<string>, number: nat)
    requires stack != [] && StepLines(stack, a, number).Ok?
    ensures StepLines(stack, a + b, number) == StepLines(StepLines(stack, a, number).value, b, number + |a|)
    decreases |a|
  {
    hide Step;
    if a == [] {
      assert a + b == b;
    } else {
      assert (a + b)[0] == a[0] && (a + b)[1..] == a[1..] + b;
      StepLinesJoin(Step(stack, a[0], number).value, a[1..], b, number + 1);
    }
  }

  /** The stack with entries added to its top mapping. */
  function Extended(stack: seq<Frame>, items: seq<Item>): (r: seq<Frame>)
    requires stack != []
    ensures |r| == |stack| && r[|r| - 1].indent == stack[|stack| - 1].indent
  {
    var n := |stack| - 1;
    stack[..n] + [stack[n].(entries := Build(stack[n].entries, items))]
  }

  lemma BuildOne(entries: map<string, Tree>, item: Item)
    ensures Build(entries, [item]) == entries[item.key := TreeOf(item)]
  {
    assert [item][1..] == [];
    assert Build(entries[item.key := TreeOf(item)], []) == entries[item.key := TreeOf(item)];
  }

  lemma ExtendedOnce(stack: seq<Frame>, items: seq<Item>)
    requires stack != [] && items != []
    ensures Extended(Extended(stack, [items[0]]), items[1..]) == Extended(stack, items)
  {
    var n := |stack| - 1;
    BuildOne(stack[n].entries, items[0]);
    assert Extended(stack, [items[0]])[..n] == stack[..n];
  }

  lemma LeafStep(stack: seq<Frame>, item: Item, indent: nat, number: nat)
    requires stack != [] && item.Leaf? && Printable(item)
    ensures StepLines(stack, PrintItem(item, indent), number) == Ok(Extended(Settle(stack, indent), [item]))
  {
    hide ReadLine, Settle, QuoteSafe, PlainName;
    SafeLeafReads(indent, item.key, item.quote, item.text);
    var base := Settle(stack, indent);
    BuildOne(base[|base| - 1].entries, item);
    StepLinesOne(stack, Spaces(indent) + LeafText(item.key, item.quote, item.text), number, Extended(base, [item]));
  }

  /** Reading printed entries adds them to the mapping they are indented under, however many deeper
      mappings are still open before and after. */
  lemma {:induction false} ReadsItems(stack: seq<Frame>, items: seq<Item>, indent: nat, number: nat)
    returns (end: seq<Frame>)
    requires stack != [] && forall i :: 0 <= i < |items| ==> Printable(items[i])
    requires var base := Settle(stack, indent); base[|base| - 1].indent < indent
    ensures end != [] && StepLines(stack, PrintItems(items, indent), number) == Ok(end)
    ensures Settle(end, indent) == Extended(Settle(stack, indent), items)
    decreases items, 1
  {
    hide Step, Printable, PrintItem;
    if items == [] {
      end := stack;
      var base := Settle(stack, indent);
      assert Extended(base, []) == base;
    } else {
      var mid := ReadsItem(stack, items[0], indent, number);
      var lines := PrintItem(items[0], indent);
      end := ReadsItems(mid, items[1..], indent, number + |lines|);
      StepLinesJoin(stack, lines, PrintItems(items[1..], indent), number);
      ExtendedOnce(Settle(stack, indent), items);
    }
  }

  lemma {:induction false} ReadsItem(stack: seq<Frame>, item: Item, indent: nat, number: nat) returns (end: seq<Frame>)
    requires stack != [] && Printable(item)
    requires var base := Settle(stack, indent); base[|base| - 1].indent < indent
    ensures end != [] && StepLines(stack, PrintItem(item, indent), number) == Ok(end)
    ensures Settle(end, indent) == Extended(Settle(stack, indent), [item])
    decreases item, 0
  {
    var base := Settle(stack, indent);
    match item
    case Leaf(_, _, _) =>
      LeafStep(stack, item, indent, number);
      end := Extended(base, [item]);
      assert Settle(end, indent) == end;
    case Branch(key, step, items) =>
      end := ReadsBranch(stack, key, step, items, indent, number);
  }

  lemma {:induction false} ReadsBranch(stack: seq<Frame>, key: string, step: nat, items: seq<Item>, indent: nat,
        number: nat)
    returns (end: seq<Frame>)
    requires stack != [] && Printable(Branch(key, step, items))
    requires var base := Settle(stack, indent); base[|base| - 1].indent < indent
    ensures end != [] && StepLines(stack, PrintItem(Branch(key, step, items), indent), number) == Ok(end)
    ensures Settle(end, indent) == Extended(Settle(stack, indent), [Branch(key, step, items)])
    decreases items, 2
  {
    hide ReadLine, PlainName, Printable, Step, Settle, Build, Extended;
    var base := Settle(stack, indent);
    var header := Spaces(indent) + (key + ":");
    var deeper := base + [Frame(indent, key, map[])];
    PrintableBranch(key, step, items);
    BranchLineReads(indent, key);
    HeaderStep(stack, key, indent, number);
    StepLinesOne(stack, header, number, deeper);
    SettledStack(deeper, indent + step);
    end := ReadsItems(deeper, items, indent + step, number + 1);
    StepLinesJoin(stack, [header], PrintItems(items, indent + step), number);
    SettleTwice(end, indent + step, indent);
    ClosesBranch(base, key, step, items, indent);
  }

  lemma HeaderStep(stack: seq<Frame>, key: string, indent: nat, number: nat)
    requires stack != [] && PlainName(key)
    ensures Step(stack, Spaces(indent) + (key + ":"), number) == Ok(Settle(stack, indent) + [Frame(indent, key, map[])])
  {
    hide ReadLine, PlainName;
    BranchLineReads(indent, key);
  }

  lemma SettledStack(stack: seq<Frame>, indent: int)
    requires stack != [] && stack[|stack| - 1].indent < indent
    ensures Settle(stack, indent) == stack
  {}

  lemma PrintableBranch(key: string, step: nat, items: seq<Item>)
    requires Printable(Branch(key, step, items))
    ensures PlainName(key) && step > 0 && forall i :: 0 <= i < |items| ==> Printable(items[i])
  {}

  lemma StepLinesOne(stack: seq<Frame>, line: string, number: nat, next: seq<Frame>)
    requires stack != [] && Step(stack, line, number) == Ok(next)
    ensures StepLines(stack, [line], number) == Ok(next)
  {
    assert [line][1..] == [];
    assert StepLines(next, [], number + 1) == Ok(next);
  }

  /** Settling at the branch's own indent closes it into its parent. */
  lemma ClosesBranch(base: seq<Frame>, key: string, step: nat, items: seq<Item>, indent: nat)
    requires base != [] && base[|base| - 1].indent < indent
    ensures Settle(Extended(base + [Frame(indent, key, map[])], items), indent)
         == Extended(base, [Branch(key, step, items)])
  {
    var open := Extended(base + [Frame(indent, key, map[])], items);
    var n := |base| - 1;
    var branch := Branch(key, step, items);
    BuildOne(base[n].entries, branch);
    assert open == base + [Frame(indent, key, Build(map[], items))];
    assert Closed(open) == Extended(base, [branch]);
    assert Settle(Closed(open), indent) == Closed(open);
  }

  // ----- Parsing undoes printing ---------------------------------------------------------------------

  lemma {:induction false} LinesOfUnlines(lines: seq<string>)
    requires forall i :: 0 <= i < |lines| ==> OneLine(lines[i])
    ensures Lines(Unlines(lines)) == lines
  {
    if lines != [] {
      var text, rest := Unlines(lines), Unlines(lines[1..]);
      FindAfter(lines[0], rest, '\n', 0);
      assert text == lines[0] + ['\n'] + rest;
      assert text[..|lines[0]|] == lines[0] && text[|lines[0]| + 1..] == rest;
      LinesOfUnlines(lines[1..]);
    }
  }

  lemma {:induction false} PrintedLines(items: seq<Item>, indent: nat)
    requires forall i :: 0 <= i < |items| ==> Printable(items[i])
    ensures forall i :: 0 <= i < |PrintItems(items, indent)| ==> OneLine(PrintItems(items, indent)[i])
    decreases items, 1
  {
    hide OneLine;
    if items != [] {
      PrintedItem(items[0], indent);
      PrintedLines(items[1..], indent);
    }
  }

  lemma {:induction false} PrintedItem(item: Item, indent: nat)
    requires Printable(item)
    ensures forall i :: 0 <= i < |PrintItem(item, indent)| ==> OneLine(PrintItem(item, indent)[i])
    decreases item, 0
  {
    match item
    case Leaf(_, _, _) =>
    case Branch(_, step, items) => PrintedLines(items, indent + step);
  }

  /** Parsing the printed entries gives the tree they stand for. */
  lemma ParsingUndoesPrinting(items: seq<Item>)
    requires forall i :: 0 <= i < |items| ==> Printable(items[i])
    ensures Parse(Print(items)) == Ok(Mapping(Build(map[], items)))
  {
    hide Printable, StepLines, Lines, Unlines, OneLine;
    PrintedLines(items, 0);
    LinesOfUnlines(PrintItems(items, 0));
    SettledStack([ROOT], 0);
    var end := ReadsItems([ROOT], items, 0, 1);
  }

  // ----- Every tree can be printed ---------------------------------------------------------------------

  /** Names and texts in the tree can be printed, with the quotes `q` around every text. */
  predicate TreePrintable(t: Tree, q: Quote) {
    match t
    case Scalar(text) => OneLine(text) && QuoteSafe(text, Inside(q))
    case Mapping(entries) => forall k :: k in entries ==> PlainName(k) && TreePrintable(entries[k], q)
  }

  lemma BuildFirst(prior: map<string, Tree>, first: Item, tail: seq<Item>)
    ensures Build(prior, [first] + tail) == Build(prior[first.key := TreeOf(first)], tail)
  {
    assert ([first] + tail)[1..] == tail;
  }

  function PutAll(prior: map<string, Tree>, entries: map<string, Tree>, keys: seq<string>): map<string, Tree>
    requires forall i :: 0 <= i < |keys| ==> keys[i] in entries
    decreases |keys|
  {
    if keys == [] then prior else PutAll(prior[keys[0] := entries[keys[0]]], entries, keys[1..])
  }

  lemma {:induction false} PutAllEntries(prior: map<string, Tree>, entries: map<string, Tree>, keys: seq<string>)
    requires forall i :: 0 <= i < |keys| ==> keys[i] in entries
    ensures PutAll(prior, entries, keys) == prior + map k | k in keys :: entries[k]
    decreases |keys|
  {
    if keys == [] {
      assert prior + map[] == prior;
    } else {
      PutAllEntries(prior[keys[0] := entries[keys[0]]], entries, keys[1..]);
      PutFirst(prior, entries, keys[0], keys[1..]);
      assert keys == [keys[0]] + keys[1..];
    }
  }

  lemma PutFirst(prior: map<string, Tree>, entries: map<string, Tree>, k: string, rest: seq<string>)
    requires k in entries && forall i :: 0 <= i < |rest| ==> rest[i] in entries
    ensures prior[k := entries[k]] + (map y | y in rest :: entries[y]) == prior + map y | y in [k] + rest :: entries[y]
  {}

  /** Entries that stand for some of the mapping's names. */
  lemma {:induction false} EntriesOf(prior: map<string, Tree>, t: Tree, keys: seq<string>, q: Quote, step: nat)
    returns (items: seq<Item>)
    requires step > 0 && t.Mapping?
    requires forall i :: 0 <= i < |keys| ==>
               keys[i] in t.entries && PlainName(keys[i]) && TreePrintable(t.entries[keys[i]], q)
    ensures forall i :: 0 <= i < |items| ==> Printable(items[i])
    ensures Build(prior, items) == PutAll(prior, t.entries, keys)
    decreases t, 0, |keys|
  {
    hide TreePrintable, PlainName, Printable, TreeOf, Build;
    if keys == [] {
      items := [];
      BuildNothing(prior);
    } else {
      var first := EntryOf(keys[0], t.entries[keys[0]], q, step);
      var tail := EntriesOf(prior[keys[0] := t.entries[keys[0]]], t, keys[1..], q, step);
      items := [first] + tail;
      BuildFirst(prior, first, tail);
    }
  }

  lemma BuildNothing(prior: map<string, Tree>)
    ensures Build(prior, []) == prior
  {}

  /** Entries that stand for a whole mapping, in some order. */
  lemma {:induction false} AllEntriesOf(t: Tree, q: Quote, step: nat) returns (items: seq<Item>)
    requires step > 0 && t.Mapping? && TreePrintable(t, q)
    ensures (forall i :: 0 <= i < |items| ==> Printable(items[i])) && Build(map[], items) == t.entries
    decreases t, 1
  {
    hide Printable, PlainName, Build;
    var keys := InSomeOrder(t.entries.Keys);
    items := EntriesOf(map[], t, keys, q, step);
    PutAllEntries(map[], t.entries, keys);
    assert map[] + (map k | k in keys :: t.entries[k]) == t.entries;
  }

  lemma {:induction false} EntryOf(k: string, t: Tree, q: Quote, step: nat) returns (item: Item)
    requires step > 0 && PlainName(k) && TreePrintable(t, q)
    ensures item.key == k && Printable(item) && TreeOf(item) == t
    decreases t, 2
  {
    match t
    case Scalar(text) => item := Leaf(k, q, text);
    case Mapping(entries) =>
      var items := AllEntriesOf(t, q, step);
      item := Branch(k, step, items);
  }

  /** Every nested mapping of plain names to safe texts has a printed form, for each quote and each
      width of indentation, and parsing it rebuilds the mapping. */
  lemma EveryMappingRoundTrips(t: Tree, q: Quote, step: nat) returns (items: seq<Item>)
    requires t.Mapping? && TreePrintable(t, q) && step > 0
    ensures Parse(Print(items)) == Ok(t)
  {
    items := AllEntriesOf(t, q, step);
    ParsingUndoesPrinting(items);
  }

  // ----- Dotted lookups --------------------------------------------------------------------------------

  function Dotted(path: seq<string>): string {
    if path == [] then "" else if |path| == 1 then path[0] else path[0] + "." + Dotted(path[1..])
  }

  predicate Dotless(path: seq<string>) {
    forall i, j :: 0 <= i < |path| && 0 <= j < |path[i]| ==> path[i][j] != '.'
  }

  /** The segments of a dotted path are the names it was made of, unless the last one is empty. */
  lemma {:induction false} SegmentsOfDotted(path: seq<string>)
    requires Dotless(path)
    ensures Segments(Dotted(path)) == path <==> path == [] || path[|path| - 1] != ""
  {
    if |path| == 1 {
      FindNone(path[0], '.', 0);
    } else if |path| > 1 {
      var text, rest := Dotted(path), Dotted(path[1..]);
      assert forall i :: 0 <= i < |path[1..]| ==> path[1..][i] == path[i + 1];
      SegmentsOfDotted(path[1..]);
      FindAfter(path[0], rest, '.', 0);
      assert text == path[0] + ['.'] + rest;
      assert text[..|path[0]|] == path[0] && text[|path[0]| + 1..] == rest;
      assert path == [path[0]] + path[1..];
    }
  }

  /** A dotted lookup finds what following the names finds. */
  lemma DottedLookupAgrees(t: Tree, path: seq<string>)
    requires Dotless(path) && (path == [] || path[|path| - 1] != "")
    ensures At(t, Dotted(path)) == Follow(t, path)
  {
    SegmentsOfDotted(path);
  }

  // ----- Lists in scalars ----------------------------------------------------------------------------

  function Joined(names: seq<string>): string {
    if names == [] then "" else if |names| == 1 then names[0] else names[0] + "," + Joined(names[1..])
  }

  /** A list entry: not empty, no comma in it, no blanks around it. */
  predicate ListName(s: string) {
    && s != "" && !IsBlank(s[0]) && !IsBlank(s[|s| - 1]) && forall i :: 0 <= i < |s| ==> s[i] != ','
  }

  lemma {:induction false} FindFrom(front: string, s: string, c: char)
    ensures FindChar(front + s, c, |front|)
         == match FindChar(s, c, 0) case None => None case Some(n) => Some(|front| + n)
  {
    FindShift(front, s, c, 0);
  }

  lemma {:induction false} FindShift(front: string, s: string, c: char, from: nat)
    requires from <= |s|
    ensures FindChar(front + s, c, |front| + from)
         == match FindChar(s, c, from) case None => None case Some(n) => Some(|front| + n)
    decreases |s| - from
  {
    if from < |s| { FindShift(front, s, c, from + 1); }
  }

  /** The loop over the commas gives back the names that were joined. */
  lemma {:induction false} SplitAfter(front: string, names: seq<string>)
    requires forall i :: 0 <= i < |names| ==> ListName(names[i])
    ensures SplitCsv(front + Joined(names), |front|) == names
    decreases |names|
  {
    hide ListName, Token;
    if |names| <= 1 {
      if names == [] { EmptyToken(); } else { ListNameFacts(names[0]); }
      FindNone(Joined(names), ',', 0);
      LastToken(front, Joined(names));
    } else {
      var rest := Joined(names[1..]);
      ListNameFacts(names[0]);
      assert Joined(names) == names[0] + [','] + rest;
      FirstToken(front, names[0], rest);
      SplitAfter(front + names[0] + [','], names[1..]);
      assert names == [names[0]] + names[1..];
    }
  }

  lemma EmptyToken()
    ensures Token("") == []
  {}

  lemma LastToken(front: string, last: string)
    requires FindChar(last, ',', 0) == None
    ensures SplitCsv(front + last, |front|) == Token(last)
  {
    hide Token;
    assert (front + last)[|front|..] == last;
    FindFrom(front, last, ',');
  }

  lemma FirstToken(front: string, first: string, rest: string)
    requires forall i :: 0 <= i < |first| ==> first[i] != ','
    ensures SplitCsv(front + (first + [','] + rest), |front|)
         == Token(first) + SplitCsv(front + first + [','] + rest, |front + first + [',']|)
  {
    hide Token;
    var s := front + (first + [','] + rest);
    FindFrom(front, first + [','] + rest, ',');
    FindAfter(first, rest, ',', 0);
    assert s[|front|..|front| + |first|] == first;
    assert s == front + first + [','] + rest;
  }

  lemma ListNameFacts(s: string)
    requires ListName(s)
    ensures Token(s) == [s] && (forall i :: 0 <= i < |s| ==> s[i] != ',') && FindChar(s, ',', 0) == None
  {
    FindNone(s, ',', 0);
  }

  lemma SplittingUndoesJoining(names: seq<string>)
    requires forall i :: 0 <= i < |names| ==> ListName(names[i])
    ensures SplitCsv(Joined(names), 0) == names
  {
    SplitAfter("", names);
    assert "" + Joined(names) == Joined(names);
  }

  /** A list stored as a scalar anywhere in a printed configuration comes back through parsing, the
      dotted lookup and the split. */
  lemma StoredListComesBack(items: seq<Item>, path: seq<string>, names: seq<string>)
    requires forall i :: 0 <= i < |items| ==> Printable(items[i])
    requires Dotless(path) && (path == [] || path[|path| - 1] != "")
    requires Follow(Mapping(Build(map[], items)), path) == Some(Scalar(Joined(names)))
    requires forall i :: 0 <= i < |names| ==> ListName(names[i])
    ensures var parsed := Parse(Print(items));
            parsed.Ok? && var found := At(parsed.value, Dotted(path));
            found.Some? && found.value.Scalar? && SplitCsv(found.value.text, 0) == names
  {
    hide Printable, Build, Follow, Joined, ListName, Dotted, Segments, Print, Parse, SplitCsv;
    ParsingUndoesPrinting(items);
    DottedLookupAgrees(Mapping(Build(map[], items)), path);
    SplittingUndoesJoining(names);
  }
}
