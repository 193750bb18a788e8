/** The parser as it runs: heap nodes, a stack of open ones, and loops over the characters. */
module YamlTree {
  import opened Text
  import opened Yaml
  import opened YamlComments

  // ----- Loops over the characters -------------------------------------------------------------

  method StripComment(raw: string) returns (clean: string)
    ensures clean == Uncommented(raw, NO_QUOTES) && WithoutComment(raw, clean)
  {
    CommentIsCut(raw);
    clean := "";
    var quotes := NO_QUOTES;
    var i := 0;
    while i < |raw| && !StartsComment(quotes, raw[i])
      invariant i <= |raw|
      invariant clean + Uncommented(raw[i..], quotes) == Uncommented(raw, NO_QUOTES)
    {
      assert raw[i..][1..] == raw[i + 1..];
      clean := clean + [raw[i]];
      quotes := After(quotes, raw[i]);
      i := i + 1;
    }
    assert clean + "" == clean;
  }

  method CountSpaces(line: string) returns (n: Option<nat>)
    ensures n == LeadingSpaces(line, 0)
  {
    var i := 0;
    while i < |line| && line[i] == ' '
      invariant i <= |line| && LeadingSpaces(line, i) == LeadingSpaces(line, 0)
    {
      i := i + 1;
    }
    if i < |line| && line[i] == '\t' {
      return None;
    }
    n := Some(i);
  }

  lemma SplitHere(s: string, start: nat)
    requires start <= |s|
    ensures match FindChar(s, ',', start)
            case None => SplitCsv(s, start) == Token(s[start..])
            case Some(comma) => SplitCsv(s, start) == Token(s[start..comma]) + SplitCsv(s, comma + 1)
  {}

  lemma Regroup<T>(a: seq<T>, b: seq<T>, c: seq<T>)
    ensures (a + b) + c == a + (b + c)
  {}

  /** `split_csv`: the start moves past one comma after the other. */
  method Split(s: string) returns (out: seq<string>)
    ensures out == SplitCsv(s, 0)
  {
    hide Trimmed, SplitCsv;
    out := [];
    var start := 0;
    while start <= |s|
      invariant start <= |s| && out + SplitCsv(s, start) == SplitCsv(s, 0)
      decreases |s| - start
    {
      var comma := FindChar(s, ',', start);
      var raw := if comma.Some? then s[start..comma.value] else s[start..];
      SplitHere(s, start);
      if comma.Some? {
        Regroup(out, Token(raw), SplitCsv(s, comma.value + 1));
      }
      var token := Trimmed(raw, IsBlank);
      if token != "" {
        out := out + [token];
      }
      if comma.None? {
        break;
      }
      start := comma.value + 1;
    }
  }

  // ----- Nodes -----------------------------------------------------------------------------------

  class YamlNode {
    var isScalar: bool
    var scalar: string
    var children: map<string, YamlNode>
    /** What the node stands for once it is finished. */
    ghost var value: Tree

    constructor ()
      ensures !isScalar && children == map[]
    {
      isScalar, scalar, children := false, "", map[];
    }

    constructor Leaf(text: string)
      ensures isScalar && scalar == text && value == Scalar(text)
    {
      isScalar, scalar, children, value := true, text, map[], Scalar(text);
    }
  }

  /** Every node in the set is finished: its value is that of its fields, and its children are in the set. */
  ghost predicate Finished(nodes: set<YamlNode>)
    reads nodes
  {
    forall n :: n in nodes ==>
      if n.isScalar then n.value == Scalar(n.scalar)
      else
        && (forall k :: k in n.children ==> n.children[k] in nodes)
        && n.value == Mapping(map k | k in n.children :: n.children[k].value)
  }

  datatype Open = Open(indent: int, node: YamlNode)

  function Nodes(stack: seq<Open>): set<YamlNode> { set i | 0 <= i < |stack| :: stack[i].node }

  /** The open node at `i` has its entries finished, but for the open node above it. */
  ghost predicate FrameOk(stack: seq<Open>, spec: seq<Frame>, done: set<YamlNode>, i: nat)
    requires i < |stack| == |spec|
    reads Nodes(stack), done
  {
    var node, frame := stack[i].node, spec[i];
    var next := i + 1 < |stack|;
    && stack[i].indent == frame.indent && !node.isScalar && node !in done
    && (next ==> spec[i + 1].key in node.children && node.children[spec[i + 1].key] == stack[i + 1].node)
    && forall k :: !(next && k == spec[i + 1].key) ==>
         && (k in node.children <==> k in frame.entries)
         && (k in node.children ==> node.children[k] in done && node.children[k].value == frame.entries[k])
  }

  ghost predicate Matches(stack: seq<Open>, spec: seq<Frame>, done: set<YamlNode>)
    reads Nodes(stack), done
  {
    && 0 < |stack| == |spec| && Finished(done)
    && (forall i, j :: 0 <= i < j < |stack| ==> stack[i].node != stack[j].node)
    && forall i :: 0 <= i < |stack| ==> FrameOk(stack, spec, done, i)
  }

  /** Popping the top: its node is finished. */
  ghost method Close(stack: seq<Open>, spec: seq<Frame>, done: set<YamlNode>)
    requires |stack| >= 2 && Matches(stack, spec, done)
    modifies stack[|stack| - 1].node`value
    ensures Matches(stack[..|stack| - 1], Closed(spec), done + {stack[|stack| - 1].node})
  {
    var n := |stack| - 1;
    var top := stack[n].node;
    assert FrameOk(stack, spec, done, n) && FrameOk(stack, spec, done, n - 1);
    top.value := Mapping(map k | k in top.children :: top.children[k].value);
    assert top.value == Mapping(spec[n].entries);
    forall i | 0 <= i < n
      ensures FrameOk(stack[..n], Closed(spec), done + {top}, i)
    {
      assert old(FrameOk(stack, spec, done, i));
    }
  }

  /** `parent->map[key] = node` with a scalar. */
  method AddLeaf(stack: seq<Open>, key: string, text: string, ghost spec: seq<Frame>,
        ghost done: set<YamlNode>) returns (node: YamlNode)
    requires Matches(stack, spec, done)
    modifies stack[|stack| - 1].node`children
    ensures fresh(node) && Matches(stack, AddScalar(spec, key, text), done + {node})
  {
    var n := |stack| - 1;
    var parent := stack[n].node;
    assert FrameOk(stack, spec, done, n);
    node := new YamlNode.Leaf(text);
    assert Finished(done + {node});
    parent.children := parent.children[key := node];
    forall i | 0 <= i <= n
      ensures FrameOk(stack, AddScalar(spec, key, text), done + {node}, i)
    {
      assert old(FrameOk(stack, spec, done, i));
    }
  }

  /** `parent->map[key] = node` with a new mapping, which goes on the stack. */
  method OpenChild(stack: seq<Open>, indent: nat, key: string, ghost spec: seq<Frame>,
        ghost done: set<YamlNode>) returns (node: YamlNode)
    requires Matches(stack, spec, done)
    modifies stack[|stack| - 1].node`children
    ensures fresh(node) && Matches(stack + [Open(indent, node)], spec + [Frame(indent, key, map[])], done)
  {
    var n := |stack| - 1;
    var parent := stack[n].node;
    assert FrameOk(stack, spec, done, n);
    node := new YamlNode();
    parent.children := parent.children[key := node];
    forall i | 0 <= i <= n + 1
      ensures FrameOk(stack + [Open(indent, node)], spec + [Frame(indent, key, map[])], done, i)
    {
      if i <= n { assert old(FrameOk(stack, spec, done, i)); }
    }
  }

  /** After the last line every open node is finished, the root last. */
  ghost method Finish(stack: seq<Open>, spec: seq<Frame>, done: set<YamlNode>) returns (all: set<YamlNode>)
    requires Matches(stack, spec, done) && Growing(spec)
    modifies Nodes(stack)
    ensures Finished(all) && stack[0].node in all && all <= done + Nodes(stack)
    ensures stack[0].node.value == Mapping(Settle(spec, 0)[0].entries)
    decreases |stack|
  {
    var n := |stack| - 1;
    var top := stack[n].node;
    assert top in Nodes(stack) && FrameOk(stack, spec, done, n);
    if n > 0 {
      Close(stack, spec, done);
      assert forall x :: x in Nodes(stack[..n]) ==> x in Nodes(stack);
      all := Finish(stack[..n], Closed(spec), done + {top});
    } else {
      top.value := Mapping(map k | k in top.children :: top.children[k].value);
      assert top.value == Mapping(spec[0].entries);
      all := done + {top};
    }
  }

  /** Pop frames until the parent, strictly less indented, is on top. */
  method PopTo(stack: seq<Open>, indent: nat, ghost spec: seq<Frame>, ghost done: set<YamlNode>)
    returns (rest: seq<Open>, ghost restSpec: seq<Frame>, ghost nowDone: set<YamlNode>)
    requires Matches(stack, spec, done)
    modifies Nodes(stack)
    ensures restSpec == Settle(spec, indent) && Matches(rest, restSpec, nowDone)
    ensures 0 < |rest| <= |stack| && rest == stack[..|rest|] && nowDone <= done + Nodes(stack)
  {
    rest, restSpec, nowDone := stack, spec, done;
    while |rest| > 1 && indent <= rest[|rest| - 1].indent
      invariant Matches(rest, restSpec, nowDone)
      invariant |rest| <= |stack| && rest == stack[..|rest|] && nowDone <= done + Nodes(stack)
      invariant Settle(restSpec, indent) == Settle(spec, indent)
      decreases |rest|
    {
      assert FrameOk(rest, restSpec, nowDone, |rest| - 1);
      Close(rest, restSpec, nowDone);
      assert rest[|rest| - 1].node in Nodes(stack);
      restSpec, nowDone := Closed(restSpec), nowDone + {rest[|rest| - 1].node};
      rest := rest[..|rest| - 1];
    }
    assert FrameOk(rest, restSpec, nowDone, |rest| - 1);
  }

  /** One entry: pop to its parent, add a node there, and keep a mapping open. */
  method AddEntry(stack: seq<Open>, indent: nat, key: string, value: string, ghost spec: seq<Frame>,
        ghost done: set<YamlNode>)
    returns (next: seq<Open>, ghost nextSpec: seq<Frame>, ghost nowDone: set<YamlNode>)
    requires Matches(stack, spec, done) && Growing(spec)
    modifies Nodes(stack)
    ensures nextSpec == Enter(spec, indent, key, if value == "" then None else Some(Unquote(value)))
    ensures Matches(next, nextSpec, nowDone) && Growing(nextSpec) && next != [] && nextSpec != [] && next[0] == stack[0]
    ensures fresh(Nodes(next) - Nodes(stack)) && fresh(nowDone - done - Nodes(stack))
  {
    hide Matches, Settle;
    SettleGrows(spec, indent);
    next, nextSpec, nowDone := PopTo(stack, indent, spec, done);
    TopIsHere(stack, next);
    if value != "" {
      var node := AddLeaf(next, key, Unquote(value), nextSpec, nowDone);
      nextSpec, nowDone := AddScalar(nextSpec, key, Unquote(value)), nowDone + {node};
    } else {
      var node := OpenChild(next, indent, key, nextSpec, nowDone);
      next, nextSpec := next + [Open(indent, node)], nextSpec + [Frame(indent, key, map[])];
    }
  }

  lemma TopIsHere(stack: seq<Open>, rest: seq<Open>)
    requires 0 < |rest| <= |stack| && rest == stack[..|rest|]
    ensures rest[|rest| - 1].node in Nodes(stack) && Nodes(rest) <= Nodes(stack)
  {
    assert rest[|rest| - 1] == stack[|rest| - 1];
  }

  /** `parse_yaml`: the loop over the lines. Errors carry the line's number. */
  method ParseYaml(text: string) returns (r: Result<YamlNode>, ghost nodes: set<YamlNode>)
    ensures Parse(text).Err? ==> r == Err(Parse(text).error)
    ensures Parse(text).Ok? ==> r.Ok? && Finished(nodes) && r.value in nodes && r.value.value == Parse(text).value
    ensures fresh(nodes)
  {
    hide Settle, Enter, Trimmed, Uncommented, LeadingSpaces, TrimLeft, Unquote, FrameOk, Matches, Growing, Finished,
         FindChar, Lines;
    var root := new YamlNode();
    nodes := {};
    var stack := [Open(-1, root)];
    ghost var spec := [ROOT];
    RootMatches(root);
    var lines := Lines(text);
    var n := 0;
    while n < |lines|
      invariant n <= |lines| && stack != [] && spec != []
      invariant Matches(stack, spec, nodes) && Growing(spec) && stack[0].node == root
      invariant fresh(Nodes(stack)) && fresh(nodes)
      invariant StepLines([ROOT], lines, 1) == StepLines(spec, lines[n..], n + 1)
    {
      var line := lines[n];
      var indent := CountSpaces(line);
      if indent.None? {
        return Err(TabIndent(n + 1)), {};
      }
      var clean := StripComment(line);
      var content := Trimmed(clean, IsLineSpace);
      assert lines[n..][1..] == lines[n + 1..];
      n := n + 1;
      if content == "" {
        continue;
      }
      var colon := FindChar(content, ':', 0);
      if colon.None? {
        return Err(NoColon(n)), {};
      }
      var key := Trimmed(content[..colon.value], IsBlank);
      var value := TrimLeft(content[colon.value + 1..], IsBlank);
      stack, spec, nodes := AddEntry(stack, indent.value, key, value, spec, nodes);
    }
    nodes := Finish(stack, spec, nodes);
    r := Ok(root);
  }

  lemma RootMatches(root: YamlNode)
    requires !root.isScalar && root.children == map[]
    ensures Matches([Open(-1, root)], [ROOT], {}) && Growing([ROOT])
  {}

  /** `YamlNode::at`: one segment after the other; nothing once a scalar or a missing name is met. */
  method NodeAt(root: YamlNode, dotted: string, ghost nodes: set<YamlNode>) returns (found: Option<YamlNode>)
    requires Finished(nodes) && root in nodes
    ensures At(root.value, dotted) == match found case None => None case Some(n) => Some(n.value)
    ensures found.Some? ==> found.value in nodes
  {
    var segments := Segments(dotted);
    var node := root;
    var i := 0;
    while i < |segments|
      invariant i <= |segments| && node in nodes
      invariant Follow(node.value, segments[i..]) == Follow(root.value, segments)
    {
      assert segments[i..][1..] == segments[i + 1..];
      if node.isScalar || segments[i] !in node.children {
        return None;
      }
      node := node.children[segments[i]];
      i := i + 1;
    }
    found := Some(node);
  }
}
