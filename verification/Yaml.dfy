/** The configuration's YAML subset (config/yaml.cpp): block mappings by indentation, scalars,
    quotes and comments (a part of YAML 1.2.2, section 8.2.2). */
module Yaml {
  import opened Text

  /** What a finished node is worth: a scalar, or a mapping of names to nodes. */
  datatype Tree = Scalar(text: string) | Mapping(entries: map<string, Tree>)

  datatype Error = TabIndent(line: nat) | NoColon(line: nat)
  datatype Result<+T> = Ok(value: T) | Err(error: Error)

  // ----- One line ------------------------------------------------------------------------------

  predicate IsBlank(c: char) { c == ' ' || c == '\t' }
  predicate IsLineSpace(c: char) { c == ' ' || c == '\t' || c == '\r' || c == '\n' }

  /** The number of spaces in front, or nothing when a tab comes before other text. */
  function LeadingSpaces(line: string, n: nat): Option<nat>
    requires n <= |line|
    decreases |line| - n
  {
    if n == |line| then Some(n)
    else if line[n] == ' ' then LeadingSpaces(line, n + 1)
    else if line[n] == '\t' then None
    else Some(n)
  }

  /** The two quote flags after a character. */
  datatype Quotes = Quotes(inSingle: bool, inDouble: bool)

  const NO_QUOTES := Quotes(false, false)

  function After(q: Quotes, c: char): Quotes {
    if c == '\'' && !q.inDouble then q.(inSingle := !q.inSingle)
    else if c == '"' && !q.inSingle then q.(inDouble := !q.inDouble)
    else q
  }

  predicate StartsComment(q: Quotes, c: char) { c == '#' && After(q, c) == NO_QUOTES }

  /** The text before a comment. */
  function Uncommented(raw: string, q: Quotes): string {
    if raw == "" || StartsComment(q, raw[0]) then ""
    else [raw[0]] + Uncommented(raw[1..], After(q, raw[0]))
  }

  function Unquote(s: string): string {
    if |s| >= 2 && ((s[0] == '"' && s[|s| - 1] == '"') || (s[0] == '\'' && s[|s| - 1] == '\'')) then s[1..|s| - 1]
    else s
  }

  /** What a line says: nothing, an error, or an entry; an entry without a value opens a mapping. */
  datatype Line = Skip | Tab | Colonless | Entry(indent: nat, key: string, value: Option<string>)

  function ReadContent(indent: nat, content: string): Line {
    if content == "" then Skip
    else
      match FindChar(content, ':', 0)
      case None => Colonless
      case Some(c) =>
        var value := TrimLeft(content[c + 1..], IsBlank);
        Entry(indent, Trimmed(content[..c], IsBlank), if value == "" then None else Some(Unquote(value)))
  }

  function ReadLine(line: string): Line {
    match LeadingSpaces(line, 0)
    case None => Tab
    case Some(indent) => ReadContent(indent, Trimmed(Uncommented(line, NO_QUOTES), IsLineSpace))
  }

  // ----- The stack of open mappings ---------------------------------------------------------------

  /** An open mapping: its indent, its name in the mapping below it on the stack, and the entries
      it has so far, the open one above it not among them. */
  datatype Frame = Frame(indent: int, key: string, entries: map<string, Tree>)

  const ROOT := Frame(-1, "", map[])

  /** Close the top mapping: it becomes an entry of the one below. */
  function Closed(stack: seq<Frame>): seq<Frame>
    requires |stack| >= 2
  {
    var n := |stack| - 2;
    var child, parent := stack[n + 1], stack[n];
    stack[..n] + [parent.(entries := parent.entries[child.key := Mapping(child.entries)])]
  }

  /** Close every mapping, the root aside, that is not above `indent`. */
  function Settle(stack: seq<Frame>, indent: int): (r: seq<Frame>)
    requires stack != []
    ensures r != []
    decreases |stack|
  {
    if |stack| > 1 && indent <= stack[|stack| - 1].indent then Settle(Closed(stack), indent) else stack
  }

  function AddScalar(stack: seq<Frame>, key: string, text: string): seq<Frame>
    requires stack != []
  {
    var n := |stack| - 1;
    stack[..n] + [stack[n].(entries := stack[n].entries[key := Scalar(text)])]
  }

  function Enter(stack: seq<Frame>, indent: nat, key: string, value: Option<string>): seq<Frame>
    requires stack != []
  {
    var base := Settle(stack, indent);
    match value
    case Some(text) => AddScalar(base, key, text)
    case None => base + [Frame(indent, key, map[])]
  }

  function Step(stack: seq<Frame>, line: string, number: nat): (r: Result<seq<Frame>>)
    requires stack != []
    ensures r.Ok? ==> r.value != []
  {
    match ReadLine(line)
    case Tab => Err(TabIndent(number))
    case Colonless => Err(NoColon(number))
    case Skip => Ok(stack)
    case Entry(indent, key, value) => Ok(Enter(stack, indent, key, value))
  }

  /** The lines one after the other, the first of them numbered `number`. */
  function StepLines(stack: seq<Frame>, lines: seq<string>, number: nat): (r: Result<seq<Frame>>)
    requires stack != []
    ensures r.Ok? ==> r.value != []
    decreases |lines|
  {
    if lines == [] then Ok(stack)
    else
      match Step(stack, lines[0], number)
      case Err(e) => Err(e)
      case Ok(next) => StepLines(next, lines[1..], number + 1)
  }

  /** `std::getline` until the end: a final newline ends a line and starts none. */
  function Lines(text: string): seq<string> {
    if text == "" then []
    else
      match FindChar(text, '\n', 0)
      case None => [text]
      case Some(n) => [text[..n]] + Lines(text[n + 1..])
  }

  function Parse(text: string): Result<Tree> {
    match StepLines([ROOT], Lines(text), 1)
    case Err(e) => Err(e)
    case Ok(stack) => Ok(Mapping(Settle(stack, 0)[0].entries))
  }

  /** The indents on the stack grow strictly, from the root's -1. */
  ghost predicate Growing(stack: seq<Frame>) {
    && stack != [] && stack[0].indent == -1
    && forall i, j :: 0 <= i < j < |stack| ==> stack[i].indent < stack[j].indent
  }

  lemma {:induction false} SettleGrows(stack: seq<Frame>, indent: int)
    requires Growing(stack)
    ensures var r := Settle(stack, indent);
            && Growing(r) && |r| <= |stack| && (indent >= 0 ==> r[|r| - 1].indent < indent)
            && (indent == 0 ==> |r| == 1)
    decreases |stack|
  {
    if |stack| > 1 && indent <= stack[|stack| - 1].indent {
      SettleGrows(Closed(stack), indent);
    }
  }

  lemma StepGrows(stack: seq<Frame>, line: string, number: nat)
    requires Growing(stack) && Step(stack, line, number).Ok?
    ensures Growing(Step(stack, line, number).value)
  {
    hide ReadLine, Settle;
    match ReadLine(line)
    case Entry(indent, key, value) => SettleGrows(stack, indent);
    case _ =>
  }

  // ----- Errors ---------------------------------------------------------------------------------------

  predicate IsBad(line: string) { ReadLine(line).Tab? || ReadLine(line).Colonless? }

  function ErrorOf(line: string, number: nat): Error {
    if ReadLine(line).Tab? then TabIndent(number) else NoColon(number)
  }

  function FirstBad(lines: seq<string>): (r: Option<nat>)
    ensures r.Some? ==> r.value < |lines| && IsBad(lines[r.value]) && forall j :: 0 <= j < r.value ==> !IsBad(lines[j])
    ensures r.None? ==> forall j :: 0 <= j < |lines| ==> !IsBad(lines[j])
  {
    if lines == [] then None
    else if IsBad(lines[0]) then Some(0)
    else match FirstBad(lines[1..]) case None => None case Some(i) => Some(i + 1)
  }

  /** Reading the lines fails exactly when one of them is bad, with the first one's number. */
  lemma {:induction false} FailsAtTheFirstBadLine(stack: seq<Frame>, lines: seq<string>, number: nat)
    requires stack != []
    ensures match FirstBad(lines)
            case None => StepLines(stack, lines, number).Ok?
            case Some(i) => StepLines(stack, lines, number) == Err(ErrorOf(lines[i], number + i))
    decreases |lines|
  {
    hide ReadLine, Enter;
    if lines != [] && !IsBad(lines[0]) {
      FailsAtTheFirstBadLine(Step(stack, lines[0], number).value, lines[1..], number + 1);
    }
  }

  // ----- Dotted paths -------------------------------------------------------------------------------

  /** `std::getline` over the path with '.' as its end of line. */
  function Segments(path: string): seq<string> {
    if path == "" then []
    else
      match FindChar(path, '.', 0)
      case None => [path]
      case Some(n) => [path[..n]] + Segments(path[n + 1..])
  }

  function Follow(t: Tree, path: seq<string>): Option<Tree>
    decreases |path|
  {
    if path == [] then Some(t)
    else if t.Scalar? || path[0] !in t.entries then None
    else Follow(t.entries[path[0]], path[1..])
  }

  function At(t: Tree, dotted: string): Option<Tree> { Follow(t, Segments(dotted)) }

  // ----- Comma-separated lists ------------------------------------------------------------------------

  function Token(s: string): seq<string> {
    var token := Trimmed(s, IsBlank);
    if token == "" then [] else [token]
  }

  function SplitCsv(s: string, start: nat): seq<string>
    requires start <= |s|
    decreases |s| - start
  {
    match FindChar(s, ',', start)
    case None => Token(s[start..])
    case Some(comma) => Token(s[start..comma]) + SplitCsv(s, comma + 1)
  }
}
