/** Lines of the YAML subset as they are written: what a comment cuts off, what quotes protect, and what
    each kind of line reads as (config/yaml.cpp). */
module YamlComments {
  import opened Text
  import opened Yaml
  import opened YamlPrinting

  // ----- Text without comments ------------------------------------------------------------------------

  /** One character, or a whole text between quotes. */
  datatype Piece = Bare(c: char) | Quoted(quote: Quote, text: string)

  predicate Without(s: string, c: char) { forall i :: 0 <= i < |s| ==> s[i] != c }

  predicate Whole(p: Piece) {
    match p
    case Bare(c) => c != '#' && c != '\'' && c != '"'
    case Quoted(q, text) => Without(text, Mark(q))
  }

  predicate AllWhole(pieces: seq<Piece>) { forall i :: 0 <= i < |pieces| ==> Whole(pieces[i]) }

  function PieceText(p: Piece): string {
    match p
    case Bare(c) => [c]
    case Quoted(q, text) => [Mark(q)] + (text + [Mark(q)])
  }

  function Laid(pieces: seq<Piece>): string {
    if pieces == [] then "" else PieceText(pieces[0]) + Laid(pieces[1..])
  }

  /** Nothing, or a comment. */
  predicate IsComment(tail: string) { tail == "" || tail[0] == '#' }

  /** A quote that nothing closes. */
  predicate IsOpen(tail: string) { exists q :: tail != "" && tail[0] == Mark(q) && Without(tail[1..], Mark(q)) }

  /** `kept` is the text up to the first '#' outside quotes. */
  ghost predicate WithoutComment(raw: string, kept: string) {
    exists pieces, tail :: AllWhole(pieces) && raw == Laid(pieces) + tail
      && ((IsComment(tail) && kept == Laid(pieces)) || (IsOpen(tail) && kept == raw))
  }

  lemma {:induction false} UncommentedQuote(q: Quote, text: string, rest: string)
    requires Without(text, Mark(q))
    ensures Uncommented(text + [Mark(q)] + rest, Inside(q)) == text + [Mark(q)] + Uncommented(rest, NO_QUOTES)
  {
    var s := text + [Mark(q)] + rest;
    if text == "" {
      assert s[1..] == rest;
    } else {
      assert s[1..] == text[1..] + [Mark(q)] + rest;
      UncommentedQuote(q, text[1..], rest);
      assert text == [text[0]] + text[1..];
    }
  }

  lemma UncommentedPiece(p: Piece, rest: string)
    requires Whole(p)
    ensures Uncommented(PieceText(p) + rest, NO_QUOTES) == PieceText(p) + Uncommented(rest, NO_QUOTES)
  {
    match p
    case Bare(c) => assert ([c] + rest)[1..] == rest;
    case Quoted(q, text) =>
      var s := PieceText(p) + rest;
      assert s[1..] == text + [Mark(q)] + rest;
      UncommentedQuote(q, text, rest);
  }

  lemma {:induction false} UncommentedLaid(pieces: seq<Piece>, rest: string)
    requires AllWhole(pieces)
    ensures Uncommented(Laid(pieces) + rest, NO_QUOTES) == Laid(pieces) + Uncommented(rest, NO_QUOTES)
  {
    hide Uncommented, PieceText, Whole;
    if pieces == [] {
      assert Laid(pieces) + rest == rest;
    } else {
      var first, tail := PieceText(pieces[0]), Laid(pieces[1..]);
      UncommentedPiece(pieces[0], tail + rest);
      UncommentedLaid(pieces[1..], rest);
      assert Laid(pieces) + rest == first + (tail + rest);
      assert first + (tail + Uncommented(rest, NO_QUOTES)) == Laid(pieces) + Uncommented(rest, NO_QUOTES);
    }
  }

  lemma {:induction false} UncommentedOpen(q: Quote, s: string)
    requires Without(s, Mark(q))
    ensures Uncommented(s, Inside(q)) == s
  {
    if s != "" {
      UncommentedOpen(q, s[1..]);
      assert s == [s[0]] + s[1..];
    }
  }

  lemma UncommentedTail(tail: string)
    ensures IsComment(tail) ==> Uncommented(tail, NO_QUOTES) == ""
    ensures IsOpen(tail) ==> Uncommented(tail, NO_QUOTES) == tail
  {
    if IsOpen(tail) {
      var q :| tail != "" && tail[0] == Mark(q) && Without(tail[1..], Mark(q));
      UncommentedOpen(q, tail[1..]);
    }
  }

  /** Every text is whole pieces, then nothing, a comment, or a quote that nothing closes. */
  lemma {:induction false} Pieces(raw: string) returns (pieces: seq<Piece>, tail: string)
    ensures AllWhole(pieces) && raw == Laid(pieces) + tail && (IsComment(tail) || IsOpen(tail))
    decreases |raw|
  {
    pieces, tail := [], raw;
    if !IsComment(raw) && !IsOpen(raw) {
      var first, rest := FirstPiece(raw);
      var more;
      more, tail := Pieces(rest);
      pieces := [first] + more;
      assert pieces[1..] == more;
    }
  }

  lemma FirstPiece(raw: string) returns (first: Piece, rest: string)
    requires !IsComment(raw) && !IsOpen(raw)
    ensures Whole(first) && raw == PieceText(first) + rest && |rest| < |raw|
  {
    var c, after := raw[0], raw[1..];
    if c != '\'' && c != '"' {
      return Bare(c), after;
    }
    var q := if c == '\'' then Single else Double;
    var n := FirstOf(after, Mark(q));
    first, rest := Quoted(q, after[..n]), after[n + 1..];
    QuotedFirst(q, raw, n);
  }

  lemma QuotedFirst(q: Quote, raw: string, n: nat)
    requires n + 1 < |raw| && raw[0] == Mark(q) && raw[n + 1] == Mark(q)
    ensures raw == PieceText(Quoted(q, raw[1..][..n])) + raw[1..][n + 1..]
  {}

  lemma {:induction false} FirstOf(s: string, c: char) returns (n: nat)
    requires !Without(s, c)
    ensures n < |s| && s[n] == c && Without(s[..n], c)
  {
    if s[0] == c {
      n := 0;
    } else {
      assert !Without(s[1..], c) by {
        var i :| 0 <= i < |s| && s[i] == c;
        assert s[1..][i - 1] == c;
      }
      n := FirstOf(s[1..], c);
      n := n + 1;
      assert s[..n] == [s[0]] + s[1..][..n - 1];
    }
  }

  /** The comment is cut off, and nothing else. */
  lemma CommentIsCut(raw: string)
    ensures forall kept :: WithoutComment(raw, kept) <==> kept == Uncommented(raw, NO_QUOTES)
  {
    hide Uncommented, Laid, IsOpen, IsComment, AllWhole;
    forall pieces, tail | AllWhole(pieces) && raw == Laid(pieces) + tail
      ensures IsComment(tail) ==> Uncommented(raw, NO_QUOTES) == Laid(pieces)
      ensures IsOpen(tail) ==> Uncommented(raw, NO_QUOTES) == raw
    {
      UncommentedLaid(pieces, tail);
      UncommentedTail(tail);
    }
    var pieces, tail := Pieces(raw);
  }

  // ----- Whole lines -----------------------------------------------------------------------------------

  predicate Blanks(s: string) { forall i :: 0 <= i < |s| ==> s[i] == ' ' || s[i] == '\t' }
  predicate Spacing(s: string) { forall i :: 0 <= i < |s| ==> s[i] in {' ', '\t', '\r', '\n'} }

  /** Not empty, and no spacing at either end. */
  predicate Tight(s: string) {
    s != "" && s[0] !in {' ', '\t', '\r', '\n'} && s[|s| - 1] !in {' ', '\t', '\r', '\n'}
  }

  /** A name as the configuration writes it. */
  predicate IsName(key: string) {
    Tight(key) && Without(key, ':') && Without(key, '#') && Without(key, '\'') && Without(key, '"')
  }

  /** The text inside the quotes around the whole value, else the value itself. */
  predicate Unwrapped(value: string, text: string) {
    || value == "'" + text + "'" || value == "\"" + text + "\""
    || (value == text && !(|value| >= 2 && value[0] == value[|value| - 1] && value[0] in {'\'', '"'}))
  }

  lemma UnwrappedIsUnquoted(value: string, text: string)
    requires Unwrapped(value, text)
    ensures Unquote(value) == text
  {}

  lemma {:induction false} TrimRightDrops(s: string, after: string)
    requires Spacing(after)
    ensures TrimRight(s + after, IsLineSpace) == TrimRight(s, IsLineSpace)
    decreases |after|
  {
    if after == "" {
      assert s + after == s;
    } else {
      assert (s + after)[..|s + after| - 1] == s + after[..|after| - 1];
      TrimRightDrops(s, after[..|after| - 1]);
    }
  }

  lemma {:induction false} TrimRightBlanks(s: string, gap: string)
    requires Blanks(gap) && Tight(s)
    ensures TrimRight(s + gap, IsBlank) == s
    decreases |gap|
  {
    if gap == "" {
      assert s + gap == s;
    } else {
      assert (s + gap)[..|s + gap| - 1] == s + gap[..|gap| - 1];
      TrimRightBlanks(s, gap[..|gap| - 1]);
    }
  }

  lemma {:induction false} TrimLeftBlanks(gap: string, s: string)
    requires Blanks(gap) && (s == "" || Tight(s))
    ensures TrimLeft(gap + s, IsBlank) == s
    decreases |gap|
  {
    if gap == "" {
      assert gap + s == s;
    } else {
      assert (gap + s)[1..] == gap[1..] + s;
      TrimLeftBlanks(gap[1..], s);
    }
  }

  /** What a comment leaves of a line. */
  lemma UncommentedLine(front: string, pieces: seq<Piece>, after: string, tail: string)
    requires Markless(front) && AllWhole(pieces) && Spacing(after) && IsComment(tail)
    ensures Uncommented(front + (Laid(pieces) + (after + tail)), NO_QUOTES) == front + (Laid(pieces) + after)
  {
    hide Uncommented, Whole, Laid;
    UncommentedMarkless(front, Laid(pieces) + (after + tail), NO_QUOTES);
    UncommentedLaid(pieces, after + tail);
    UncommentedMarkless(after, tail, NO_QUOTES);
    UncommentedTail(tail);
    assert after + "" == after;
  }

  lemma SpacesAndHead(n: nat, head: string)
    requires Markless(head)
    ensures Markless(Spaces(n) + head)
  {}

  /** What a line is trimmed to: its text between the indentation and the spacing before a comment. */
  lemma LineContent(n: nat, head: string, pieces: seq<Piece>, after: string, tail: string)
    requires Markless(head) && AllWhole(pieces) && Spacing(after) && IsComment(tail) && Tight(head + Laid(pieces))
    ensures ReadLine(Spaces(n) + (head + Laid(pieces) + after + tail)) == ReadContent(n, head + Laid(pieces))
  {
    hide ReadContent, Uncommented, TrimRight, TrimLeft, Whole, Laid, Markless, LeadingSpaces;
    var body := head + Laid(pieces);
    var line := Spaces(n) + (body + after + tail);
    LeadingOfSpaces(n, body + after + tail, 0);
    SpacesAndHead(n, head);
    UncommentedLine(Spaces(n) + head, pieces, after, tail);
    assert line == Spaces(n) + head + (Laid(pieces) + (after + tail));
    assert Spaces(n) + head + (Laid(pieces) + after) == Spaces(n) + (body + after);
    TrimLeftSpaces(n, body + after);
    TrimRightDrops(body, after);
    TrimRightDone(body);
  }

  /** A name, a colon and a value. */
  lemma ContentIs(n: nat, key: string, gap: string, gap': string, value: string)
    requires IsName(key) && Blanks(gap) && Blanks(gap') && (value == "" || Tight(value))
    ensures ReadContent(n, key + gap + ":" + gap' + value)
         == Entry(n, key, if value == "" then None else Some(Unquote(value)))
  {
    hide Unquote, TrimLeft, TrimRight;
    var content := key + gap + ":" + gap' + value;
    assert content == key + gap + [':'] + (gap' + value);
    FindAfter(key + gap, gap' + value, ':', 0);
    assert content[..|key + gap|] == key + gap && content[|key + gap| + 1..] == gap' + value;
    TrimLeftBlanks(gap', value);
    TrimLeftBlanks("", key);
    assert Trimmed(key + gap, IsBlank) == key by {
      TrimLeftDone(key + gap);
      TrimRightBlanks(key, gap);
    }
  }

  lemma TrimLeftDone(s: string)
    requires s != "" && !IsBlank(s[0])
    ensures TrimLeft(s, IsBlank) == s
  {}

  /** An entry with a value, however it is spaced and whatever comment follows. */
  lemma EntryReads(n: nat, key: string, gap: string, gap': string, pieces: seq<Piece>, after: string,
        tail: string, text: string)
    requires IsName(key) && Blanks(gap) && Blanks(gap') && Spacing(after) && IsComment(tail)
    requires AllWhole(pieces) && Tight(Laid(pieces)) && Unwrapped(Laid(pieces), text)
    ensures ReadLine(Spaces(n) + (key + gap + ":" + gap' + Laid(pieces) + after + tail)) == Entry(n, key, Some(text))
  {
    hide ReadLine, ReadContent, Unquote, Laid, Unwrapped;
    LineContent(n, key + gap + ":" + gap', pieces, after, tail);
    ContentIs(n, key, gap, gap', Laid(pieces));
    UnwrappedIsUnquoted(Laid(pieces), text);
  }

  /** A name that opens a mapping, whatever comment follows. */
  lemma OpeningReads(n: nat, key: string, gap: string, after: string, tail: string)
    requires IsName(key) && Blanks(gap) && Spacing(after) && IsComment(tail)
    ensures ReadLine(Spaces(n) + (key + gap + ":" + after + tail)) == Entry(n, key, None)
  {
    hide ReadLine, ReadContent;
    var head := key + gap + ":";
    assert head + Laid([]) == head && head + "" + "" == head;
    LineContent(n, head, [], after, tail);
    ContentIs(n, key, gap, "", "");
  }

  /** Text without a colon. */
  lemma ColonlessReads(n: nat, pieces: seq<Piece>, after: string, tail: string)
    requires AllWhole(pieces) && Spacing(after) && IsComment(tail) && Tight(Laid(pieces)) && Without(Laid(pieces), ':')
    ensures ReadLine(Spaces(n) + (Laid(pieces) + after + tail)) == Colonless
  {
    hide ReadLine;
    assert "" + Laid(pieces) == Laid(pieces);
    LineContent(n, "", pieces, after, tail);
    FindNone(Laid(pieces), ':', 0);
  }

  /** A comment, or nothing, after spaces and perhaps a carriage return. */
  lemma CommentReads(n: nat, cr: string, tail: string)
    requires IsComment(tail) && (cr == "" || cr == "\r")
    ensures ReadLine(Spaces(n) + (cr + tail)) == Skip
  {
    hide Uncommented, TrimLeft, TrimRight, LeadingSpaces;
    var line := Spaces(n) + (cr + tail);
    UncommentedTail(tail);
    UncommentedMarkless(Spaces(n) + cr, tail, NO_QUOTES);
    assert line == Spaces(n) + cr + tail && Spaces(n) + cr + "" == Spaces(n) + cr;
    NoTabInFront(line, n, 0);
    TrimLeftAll(Spaces(n) + cr);
    TrimRightNothing();
  }

  lemma TrimRightNothing()
    ensures TrimRight("", IsLineSpace) == ""
  {}

  lemma {:induction false} TrimLeftAll(s: string)
    requires Spacing(s)
    ensures TrimLeft(s, IsLineSpace) == ""
  {
    if s != "" { TrimLeftAll(s[1..]); }
  }

  lemma {:induction false} NoTabInFront(line: string, n: nat, i: nat)
    requires i <= n <= |line| && (forall j :: 0 <= j < n ==> line[j] == ' ') && (n == |line| || !IsBlank(line[n]))
    ensures LeadingSpaces(line, i) == Some(n)
    decreases n - i
  {
    if i < n { NoTabInFront(line, n, i + 1); }
  }

  lemma {:induction false} TabInFront(line: string, n: nat, i: nat)
    requires i <= n < |line| && (forall j :: 0 <= j < n ==> line[j] == ' ') && line[n] == '\t'
    ensures LeadingSpaces(line, i) == None
    decreases n - i
  {
    if i < n { TabInFront(line, n, i + 1); }
  }

  lemma TabReads(n: nat, rest: string)
    ensures ReadLine(Spaces(n) + ("\t" + rest)) == Tab
  {
    TabInFront(Spaces(n) + ("\t" + rest), n, 0);
  }

  lemma {:induction false} MarklessIsBare(value: string) returns (pieces: seq<Piece>)
    requires Markless(value)
    ensures AllWhole(pieces) && Laid(pieces) == value
  {
    pieces := [];
    if value != "" {
      var rest := MarklessIsBare(value[1..]);
      pieces := [Bare(value[0])] + rest;
      assert pieces[1..] == rest && value == [value[0]] + value[1..];
    }
  }

  /** An unquoted value followed by a comment. */
  lemma PlainValueReads(n: nat, key: string, value: string, blanks: string, rest: string)
    requires IsName(key) && Markless(value) && Tight(value) && Blanks(blanks)
    ensures ReadLine(Spaces(n) + (key + ": " + value + blanks + "#" + rest)) == Entry(n, key, Some(value))
  {
    hide ReadLine;
    var pieces := MarklessIsBare(value);
    EntryReads(n, key, "", " ", pieces, blanks, "#" + rest, value);
    assert key + "" + ":" + " " + value + blanks + ("#" + rest) == key + ": " + value + blanks + "#" + rest;
  }

  /** A quoted value, whatever but its own quote stands in it, followed by a comment. */
  lemma QuotedValueReads(n: nat, key: string, q: Quote, text: string, blanks: string, rest: string)
    requires IsName(key) && Without(text, Mark(q)) && Blanks(blanks)
    ensures ReadLine(Spaces(n) + (key + ": " + [Mark(q)] + text + [Mark(q)] + blanks + "#" + rest))
         == Entry(n, key, Some(text))
    ensures ReadLine(Spaces(n) + (key + ": " + [Mark(q)] + text + [Mark(q)])) == Entry(n, key, Some(text))
  {
    hide ReadLine;
    var pieces := [Quoted(q, text)];
    var value := [Mark(q)] + text + [Mark(q)];
    assert pieces[1..] == [] && Laid(pieces) == value;
    EntryReads(n, key, "", " ", pieces, blanks, "#" + rest, text);
    EntryReads(n, key, "", " ", pieces, "", "", text);
    assert key + "" + ":" + " " + value + blanks + ("#" + rest)
        == key + ": " + [Mark(q)] + text + [Mark(q)] + blanks + "#" + rest;
    assert key + "" + ":" + " " + value + "" + "" == key + ": " + [Mark(q)] + text + [Mark(q)];
  }

  lemma {:induction false} SafeIsUncommented(text: string, q: Quotes)
    ensures QuoteSafe(text, q) <==> Uncommented(text, q) == text
  {
    if text != "" {
      SafeIsUncommented(text[1..], After(q, text[0]));
      assert text == [text[0]] + text[1..];
    }
  }

  /** A quoted scalar reads back exactly when nothing is cut off it: when every '#' in it stands between
      quotes, its opening one among them. */
  lemma LeafReadsBackIffWhole(n: nat, key: string, q: Quote, text: string)
    requires PlainName(key)
    ensures ReadLine(Spaces(n) + LeafText(key, q, text)) == Entry(n, key, Some(text))
       <==> WithoutComment([Mark(q)] + text, [Mark(q)] + text)
  {
    hide ReadLine, Uncommented, WithoutComment;
    LeafReadsBackIffSafe(n, key, q, text);
    CommentIsCut([Mark(q)] + text);
    SafeIsUncommented([Mark(q)] + text, NO_QUOTES);
    assert ([Mark(q)] + text)[1..] == text;
  }

  // ----- Whole texts -------------------------------------------------------------------------------------

  lemma {:induction false} LeadingBeforeTail(s: string, tail: string, i: nat)
    requires i <= |s| && IsComment(tail)
    ensures LeadingSpaces(s + tail, i) == LeadingSpaces(s, i)
    decreases |s| - i
  {
    if i < |s| {
      LeadingBeforeTail(s, tail, i + 1);
    } else {
      assert s + "" == s;
    }
  }

  /** `b` is `a`, which holds no comment, with a comment or nothing added. */
  ghost predicate Annotated(a: string, b: string) {
    && a <= b && IsComment(b[|a|..])
    && exists pieces :: AllWhole(pieces) && a == Laid(pieces)
  }

  lemma AnnotationReadsAlike(a: string, b: string)
    requires Annotated(a, b)
    ensures ReadLine(a) == ReadLine(b)
  {
    hide Uncommented, LeadingSpaces, ReadContent, TrimLeft, TrimRight;
    var pieces :| AllWhole(pieces) && a == Laid(pieces);
    var tail := b[|a|..];
    assert b == a + tail && a == a + "";
    LeadingBeforeTail(a, tail, 0);
    UncommentedLaid(pieces, tail);
    UncommentedLaid(pieces, "");
    UncommentedTail(tail);
    UncommentedTail("");
  }

  /** Comments never change what a text parses to: annotated lines parse as the bare ones do. */
  lemma CommentsChangeNothing(a: seq<string>, b: seq<string>)
    requires |a| == |b| && forall i :: 0 <= i < |a| ==> Annotated(a[i], b[i]) && OneLine(a[i]) && OneLine(b[i])
    ensures Parse(Unlines(a)) == Parse(Unlines(b))
  {
    hide Annotated, Lines, Unlines, StepLines, OneLine;
    LinesOfUnlines(a);
    LinesOfUnlines(b);
    AnnotatedStepsAlike([ROOT], a, b, 1);
  }

  lemma {:induction false} AnnotatedStepsAlike(stack: seq<Frame>, a: seq<string>, b: seq<string>, number: nat)
    requires |a| == |b| && (forall i :: 0 <= i < |a| ==> Annotated(a[i], b[i])) && stack != []
    ensures StepLines(stack, a, number) == StepLines(stack, b, number)
    decreases |a|
  {
    hide ReadLine, Annotated, Enter;
    if a != [] {
      AnnotationReadsAlike(a[0], b[0]);
      if Step(stack, a[0], number).Ok? {
        AnnotatedStepsAlike(Step(stack, a[0], number).value, a[1..], b[1..], number + 1);
      }
    }
  }
}
