/** The parser of column types: it builds the tree in place, through a pointer to the current node and
    a stack of the nodes it was reached from. */
module TypeParser {
  import opened Chars
  import opened Decimals

  datatype Meta = Array | Null | Nullable | Number | Terminal | Tuple

  /** A type; its elements in order, the last one outermost. */
  datatype TypeAst = TypeAst(meta: Meta, name: string, size: nat, elements: Elements)
  datatype Elements = None | Append(front: Elements, last: TypeAst)

  const INT_MAX: nat := 0x7FFF_FFFF

  // ---- Tokens

  datatype TypeToken = NameToken(value: string) | NumberToken(value: string) | LPar | RPar | Comma

  /** The tokens of a text, up to its end or to a character that starts none. */
  datatype Tokens = End | Invalid | Then(tok: TypeToken, rest: Tokens)

  predicate IsTypeBlank(c: char) { c == ' ' || c == '\n' || c == '\t' || c == '\0' }

  function AlnumEnd(text: string, p: nat): (n: nat)
    requires p <= |text|
    ensures p <= n <= |text|
    decreases |text| - p
  {
    if p < |text| && (IsAlpha(text[p]) || IsDigit(text[p])) then AlnumEnd(text, p + 1) else p
  }

  function DigitsEnd(text: string, p: nat): (n: nat)
    requires p <= |text|
    ensures p <= n <= |text|
    decreases |text| - p
  {
    if p < |text| && IsDigit(text[p]) then DigitsEnd(text, p + 1) else p
  }

  function TokensAt(text: string, p: nat): Tokens
    requires p <= |text|
    decreases |text| - p
  {
    if p == |text| then End
    else
      var c := text[p];
      if IsTypeBlank(c) then TokensAt(text, p + 1)
      else if c == '(' then Then(LPar, TokensAt(text, p + 1))
      else if c == ')' then Then(RPar, TokensAt(text, p + 1))
      else if c == ',' then Then(Comma, TokensAt(text, p + 1))
      else if IsAlpha(c) then
        var e := AlnumEnd(text, p + 1);
        Then(NameToken(text[p..e]), TokensAt(text, e))
      else if IsDigit(c) then
        var e := DigitsEnd(text, p + 1);
        Then(NumberToken(text[p..e]), TokensAt(text, e))
      else Invalid
  }

  /** Popping the stack of `depth` open nodes never finds it empty. */
  predicate StackSuffices(ts: Tokens, depth: nat) {
    match ts
    case End => true
    case Invalid => true
    case Then(tok, rest) =>
      match tok
      case LPar => StackSuffices(rest, depth + 1)
      case RPar => 0 < depth && StackSuffices(rest, depth - 1)
      case Comma => 0 < depth && StackSuffices(rest, depth)
      case _ => StackSuffices(rest, depth)
  }

  // ---- The tree under construction

  function MetaOf(name: string): Meta {
    if name == "Array" then Array
    else if name == "Null" then Null
    else if name == "Nullable" then Nullable
    else if name == "Tuple" then Tuple
    else Terminal
  }

  /** Reading an `int` from digits clamps what does not fit. */
  function IntOf(digits: string): nat {
    var v := Value(digits);
    if v < 0 then 0 else if INT_MAX < v then INT_MAX else v
  }

  /** A node as `emplace_back` makes it: the first enumerator, no name, size 0. */
  const NEW_TYPE := TypeAst(Array, "", 0, None)

  /** The nodes above the current one, each without the element the path goes through. */
  datatype Above = Top | Under(meta: Meta, name: string, size: nat, front: Elements, above: Above)

  /** The current node with all below it, and the path to the root.  `short` says that the stack holds
      the path alone and not also the root below it; a comma or a closing parenthesis outside all
      parentheses makes it so. */
  datatype Tree = Tree(node: TypeAst, above: Above, short: bool)

  function Height(above: Above): nat {
    if above.Top? then 0 else 1 + Height(above.above)
  }

  function StackSize(t: Tree): nat {
    Height(t.above) + if t.short then 0 else 1
  }

  function Raised(t: Tree): Tree {
    match t.above
    case Top => t.(short := true)
    case Under(meta, name, size, front, above) =>
      Tree(TypeAst(meta, name, size, Append(front, t.node)), above, t.short)
  }

  function Lowered(t: Tree): Tree {
    Tree(NEW_TYPE, Under(t.node.meta, t.node.name, t.node.size, t.node.elements, t.above), t.short)
  }

  function Step(t: Tree, tok: TypeToken): Tree {
    match tok
    case NameToken(value) => t.(node := t.node.(meta := MetaOf(value), name := value))
    case NumberToken(value) => t.(node := t.node.(meta := Number, size := IntOf(value)))
    case LPar => Lowered(t)
    case RPar => Raised(t)
    case Comma => Lowered(Raised(t))
  }

  function Whole(node: TypeAst, above: Above): TypeAst
    decreases above
  {
    match above
    case Top => node
    case Under(meta, name, size, front, rest) => Whole(TypeAst(meta, name, size, Append(front, node)), rest)
  }

  function Finish(t: Tree, ts: Tokens): Tree
    decreases ts
  {
    if ts.Then? then Finish(Step(t, ts.tok), ts.rest) else t
  }

  predicate Ends(ts: Tokens) {
    if ts.Then? then Ends(ts.rest) else ts.End?
  }

  /** The root is default-initialised: its first `meta` is not determined. */
  function Root(meta: Meta): Tree { Tree(NEW_TYPE.(meta := meta), Top, false) }

  /** What parsing makes of the root. */
  function ParsedType(text: string, meta: Meta): TypeAst {
    var t := Finish(Root(meta), TokensAt(text, 0));
    Whole(t.node, t.above)
  }

  // ---- The tree in memory

  /** A node of the tree; `elements` point to other nodes. */
  datatype Node = Node(meta: Meta, name: string, size: nat, elements: seq<nat>)

  const NEW_NODE := Node(Array, "", 0, [])

  /** Node `i` and those from there up to `hi` form the type `t`. */
  ghost predicate IsType(nodes: seq<Node>, i: nat, hi: nat, t: TypeAst)
    decreases t
  {
    && i < hi <= |nodes|
    && nodes[i].meta == t.meta && nodes[i].name == t.name && nodes[i].size == t.size
    && AreElements(nodes, nodes[i].elements, i + 1, hi, t.elements)
  }

  ghost predicate AreElements(nodes: seq<Node>, ids: seq<nat>, lo: nat, hi: nat, es: Elements)
    decreases es
  {
    match es
    case None => ids == [] && lo <= hi
    case Append(front, last) =>
      && ids != []
      && var i := ids[|ids| - 1];
         && lo <= i && IsType(nodes, i, hi, last)
         && AreElements(nodes, ids[..|ids| - 1], lo, i, front)
  }

  /** `path` leads from the root to the parent of `cur`, whose last element `cur` is; likewise above. */
  ghost predicate IsPath(nodes: seq<Node>, path: seq<nat>, cur: nat, above: Above)
    decreases above
  {
    match above
    case Top => path == [] && cur == 0
    case Under(meta, name, size, front, rest) =>
      && path != []
      && var p := path[|path| - 1];
         && p < cur < |nodes|
         && nodes[p].meta == meta && nodes[p].name == name && nodes[p].size == size
         && nodes[p].elements != [] && nodes[p].elements[|nodes[p].elements| - 1] == cur
         && AreElements(nodes, nodes[p].elements[..|nodes[p].elements| - 1], p + 1, cur, front)
         && IsPath(nodes, path[..|path| - 1], p, rest)
  }

  /** The stack holds the path to the current node, and in general the root once more below it. */
  ghost predicate IsTree(nodes: seq<Node>, cur: nat, stack: seq<nat>, t: Tree) {
    && IsType(nodes, cur, |nodes|, t.node)
    && (t.short || (stack != [] && stack[0] == 0))
    && IsPath(nodes, if t.short then stack else stack[1..], cur, t.above)
  }

  // ---- Changing the tree in memory changes the tree

  predicate Agree(nodes: seq<Node>, others: seq<Node>, lo: nat, hi: nat) {
    hi <= |nodes| && hi <= |others| && forall k :: lo <= k < hi ==> nodes[k] == others[k]
  }

  lemma {:induction false} TypeFrame(nodes: seq<Node>, others: seq<Node>, i: nat, hi: nat, t: TypeAst)
    requires IsType(nodes, i, hi, t) && Agree(nodes, others, i, hi)
    ensures IsType(others, i, hi, t)
    decreases t
  {
    ElementsFrame(nodes, others, nodes[i].elements, i + 1, hi, t.elements);
  }

  lemma {:induction false} ElementsFrame(
      nodes: seq<Node>, others: seq<Node>, ids: seq<nat>, lo: nat, hi: nat, es: Elements)
    requires AreElements(nodes, ids, lo, hi, es) && Agree(nodes, others, lo, hi)
    ensures lo <= hi && AreElements(others, ids, lo, hi, es)
    decreases es
  {
    if es.Append? {
      var i := ids[|ids| - 1];
      TypeFrame(nodes, others, i, hi, es.last);
      ElementsFrame(nodes, others, ids[..|ids| - 1], lo, i, es.front);
    }
  }

  lemma {:induction false} PathFrame(nodes: seq<Node>, others: seq<Node>, path: seq<nat>, cur: nat, above: Above)
    requires IsPath(nodes, path, cur, above) && Agree(nodes, others, 0, cur) && cur < |others|
    ensures IsPath(others, path, cur, above)
    decreases above
  {
    if above.Under? {
      var p := path[|path| - 1];
      ElementsFrame(nodes, others, nodes[p].elements[..|nodes[p].elements| - 1], p + 1, cur, above.front);
      PathFrame(nodes, others, path[..|path| - 1], p, above.above);
    }
  }

  /** The current node and the path to it, whatever the stack looks like. */
  ghost predicate Focused(nodes: seq<Node>, cur: nat, path: seq<nat>, node: TypeAst, above: Above) {
    IsType(nodes, cur, |nodes|, node) && IsPath(nodes, path, cur, above)
  }

  lemma {:induction false} ChangeNode(
      nodes: seq<Node>, cur: nat, path: seq<nat>, node: TypeAst, above: Above, made: Node)
    requires Focused(nodes, cur, path, node, above) && made.elements == nodes[cur].elements
    ensures Focused(nodes[cur := made], cur, path, TypeAst(made.meta, made.name, made.size, node.elements), above)
  {
    var others := nodes[cur := made];
    ElementsFrame(nodes, others, nodes[cur].elements, cur + 1, |nodes|, node.elements);
    PathFrame(nodes, others, path, cur, above);
  }

  lemma {:induction false} AddElement(nodes: seq<Node>, cur: nat, path: seq<nat>, node: TypeAst, above: Above)
    requires Focused(nodes, cur, path, node, above)
    ensures Focused(WithElement(nodes, cur), |nodes|, path + [cur], NEW_TYPE,
                    Under(node.meta, node.name, node.size, node.elements, above))
  {
    var n := |nodes|;
    var others := WithElement(nodes, cur);
    var ids := others[cur].elements;
    assert ids[..|ids| - 1] == nodes[cur].elements;
    assert (path + [cur])[..|path|] == path;
    ElementsFrame(nodes, others, nodes[cur].elements, cur + 1, n, node.elements);
    PathFrame(nodes, others, path, cur, above);
  }

  /** A new element at the end of node `cur`. */
  function WithElement(nodes: seq<Node>, cur: nat): seq<Node>
    requires cur < |nodes|
  {
    nodes[cur := nodes[cur].(elements := nodes[cur].elements + [|nodes|])] + [NEW_NODE]
  }

  lemma {:induction false} GoUp(
      nodes: seq<Node>, cur: nat, path: seq<nat>, node: TypeAst, above: Above)
    requires Focused(nodes, cur, path, node, above) && above.Under?
    ensures path != [] && Focused(nodes, path[|path| - 1], path[..|path| - 1],
              TypeAst(above.meta, above.name, above.size, Append(above.front, node)), above.above)
  {
  }

  /** The path from the root to the parent of `cur`: each node on it is the last element of the one
      before, and `cur` is that of the last. */
  predicate LeadsTo(nodes: seq<Node>, path: seq<nat>, cur: nat) {
    && (if path == [] then cur == 0 else path[0] == 0)
    && forall i :: 0 <= i < |path| ==>
         && path[i] < |nodes| && nodes[path[i]].elements != []
         && nodes[path[i]].elements[|nodes[path[i]].elements| - 1] == if i + 1 < |path| then path[i + 1] else cur
  }

  lemma {:induction false} PathHeight(nodes: seq<Node>, path: seq<nat>, cur: nat, above: Above)
    requires IsPath(nodes, path, cur, above)
    ensures |path| == Height(above) && LeadsTo(nodes, path, cur)
    decreases above
  {
    if above.Under? {
      PathHeight(nodes, path[..|path| - 1], path[|path| - 1], above.above);
    }
  }

  /** The stack has the size the tree gives it, its bottom is the root, and it holds the path from the
      root to the parent of the current node: above one more copy of the root, or by itself once a comma
      or a closing parenthesis outside all parentheses took that copy off. */
  lemma {:induction false} StackOfTree(nodes: seq<Node>, cur: nat, stack: seq<nat>, t: Tree)
    requires IsTree(nodes, cur, stack, t)
    ensures |stack| == StackSize(t) && (stack != [] ==> stack[0] == 0)
    ensures t.above == Top ==> cur == 0
    ensures if t.short then LeadsTo(nodes, stack, cur) else stack != [] && LeadsTo(nodes, stack[1..], cur)
  {
    PathHeight(nodes, if t.short then stack else stack[1..], cur, t.above);
  }

  lemma {:induction false} PopUnder(nodes: seq<Node>, cur: nat, stack: seq<nat>, t: Tree, top: nat, left: seq<nat>)
    requires IsTree(nodes, cur, stack, t) && t.above.Under? && stack != []
    requires top == stack[|stack| - 1] && left == stack[..|stack| - 1]
    ensures IsTree(nodes, top, left, Raised(t))
  {
    var path := if t.short then stack else stack[1..];
    GoUp(nodes, cur, path, t.node, t.above);
    if !t.short {
      assert path != [] && path[|path| - 1] == top;
      assert left != [] && left[1..] == path[..|path| - 1];
    }
  }

  /** At the root the stack loses its copy of the root. */
  lemma {:induction false} PopRoot(nodes: seq<Node>, cur: nat, stack: seq<nat>, t: Tree, top: nat, left: seq<nat>)
    requires IsTree(nodes, cur, stack, t) && t.above == Top && !t.short && top == 0 && left == [] && cur == 0
    ensures IsTree(nodes, top, left, Raised(t))
  {
  }

  /** Taking the top off the stack raises the focus. */
  lemma {:induction false} PopTree(nodes: seq<Node>, cur: nat, stack: seq<nat>, t: Tree, top: nat, left: seq<nat>)
    requires IsTree(nodes, cur, stack, t) && 0 < StackSize(t) && stack != []
    requires top == stack[|stack| - 1] && left == stack[..|stack| - 1]
    ensures IsTree(nodes, top, left, Raised(t))
  {
    hide IsTree;
    StackOfTree(nodes, cur, stack, t);
    if t.above.Under? {
      PopUnder(nodes, cur, stack, t, top, left);
    } else {
      PopRoot(nodes, cur, stack, t, top, left);
    }
  }

  // ---- The parser

  datatype Pulled = EndOfText | BadCharacter | Pulled(tok: TypeToken)

  class TypeParser {
    const text: string
    var cur: nat
    var nodes: seq<Node>
    var current: nat
    var openElements: seq<nat>

    constructor (name: string, meta: Meta)
      ensures text == name && cur == 0
      ensures nodes == [NEW_NODE.(meta := meta)] && current == 0 && openElements == []
    {
      text := name;
      cur := 0;
      nodes := [NEW_NODE.(meta := meta)];
      current := 0;
      openElements := [];
    }

    method NextToken() returns (r: Pulled)
      requires cur <= |text|
      modifies this`cur
      ensures old(cur) <= cur <= |text|
      ensures match TokensAt(text, old(cur))
              case End => r == EndOfText
              case Invalid => r == BadCharacter
              case Then(tok, rest) => r == Pulled(tok) && rest == TokensAt(text, cur) && old(cur) < cur
    {
      while cur < |text|
        invariant old(cur) <= cur <= |text| && TokensAt(text, cur) == TokensAt(text, old(cur))
        decreases |text| - cur
      {
        var c := text[cur];
        if IsTypeBlank(c) {
          cur := cur + 1;
        } else if c == '(' {
          cur := cur + 1;
          return Pulled(LPar);
        } else if c == ')' {
          cur := cur + 1;
          return Pulled(RPar);
        } else if c == ',' {
          cur := cur + 1;
          return Pulled(Comma);
        } else if IsAlpha(c) {
          var st := cur;
          while cur < |text| && (IsAlpha(text[cur]) || IsDigit(text[cur]))
            invariant st <= cur <= |text| && AlnumEnd(text, st) == AlnumEnd(text, cur)
            invariant cur == st ==> IsAlpha(text[st])
          {
            cur := cur + 1;
          }
          return Pulled(NameToken(text[st..cur]));
        } else if IsDigit(c) {
          var st := cur;
          while cur < |text| && IsDigit(text[cur])
            invariant st <= cur <= |text| && DigitsEnd(text, st) == DigitsEnd(text, cur)
            invariant cur == st ==> IsDigit(text[st])
          {
            cur := cur + 1;
          }
          return Pulled(NumberToken(text[st..cur]));
        } else {
          return BadCharacter;
        }
      }
      r := EndOfText;
    }

    /** `current = top; pop`. */
    method Pop(ghost t: Tree)
      requires IsTree(nodes, current, openElements, t) && 0 < StackSize(t)
      modifies this`current, this`openElements
      ensures IsTree(nodes, current, openElements, Raised(t))
    {
      StackOfTree(nodes, current, openElements, t);
      var top, left := openElements[|openElements| - 1], openElements[..|openElements| - 1];
      PopTree(nodes, current, openElements, t, top, left);
      current := top;
      openElements := left;
    }

    /** A new last element of the current node becomes the current node. */
    method Push(ghost t: Tree)
      requires IsTree(nodes, current, openElements, t)
      modifies this`nodes, this`current, this`openElements
      ensures IsTree(nodes, current, openElements, Lowered(t))
    {
      ghost var path := if t.short then openElements else openElements[1..];
      AddElement(nodes, current, path, t.node, t.above);
      assert !t.short ==> (openElements + [current])[1..] == path + [current];
      nodes := WithElement(nodes, current);
      openElements := openElements + [current];
      current := |nodes| - 1;
    }

    method Change(ghost t: Tree, made: Node)
      requires IsTree(nodes, current, openElements, t) && made.elements == nodes[current].elements
      modifies this`nodes
      ensures IsTree(nodes, current, openElements,
                     t.(node := TypeAst(made.meta, made.name, made.size, t.node.elements)))
    {
      ChangeNode(nodes, current, if t.short then openElements else openElements[1..], t.node, t.above, made);
      nodes := nodes[current := made];
    }

    /** What one token does. */
    method Apply(ghost t: Tree, tok: TypeToken)
      requires IsTree(nodes, current, openElements, t)
      requires tok.RPar? || tok.Comma? ==> 0 < StackSize(t)
      modifies this`nodes, this`current, this`openElements
      ensures IsTree(nodes, current, openElements, Step(t, tok))
    {
      match tok {
        case NameToken(value) =>
          Change(t, nodes[current].(meta := MetaOf(value), name := value));
        case NumberToken(value) =>
          Change(t, nodes[current].(meta := Number, size := IntOf(value)));
        case LPar =>
          Push(t);
        case RPar =>
          Pop(t);
        case Comma =>
          Pop(t);
          Push(Raised(t));
      }
    }

    /** One turn of the loop. */
    method Turn(ghost t: Tree) returns (r: Pulled, ghost after: Tree)
      requires cur <= |text| && IsTree(nodes, current, openElements, t)
      requires StackSuffices(TokensAt(text, cur), StackSize(t))
      modifies this
      ensures old(cur) <= cur <= |text| && IsTree(nodes, current, openElements, after)
      ensures match TokensAt(text, old(cur))
              case End => r == EndOfText && after == t
              case Invalid => r == BadCharacter && after == t
              case Then(tok, rest) =>
                && r == Pulled(tok) && after == Step(t, tok) && rest == TokensAt(text, cur) && old(cur) < cur
                && StackSuffices(rest, StackSize(after))
    {
      r := NextToken();
      after := t;
      if r.Pulled? {
        Apply(t, r.tok);
        after := Step(t, r.tok);
      }
    }

    /** `ok` tells whether the end of the text was reached; the nodes from 0 on are then the type. */
    method Parse(ghost meta: Meta) returns (ok: bool)
      requires cur == 0 && nodes == [NEW_NODE.(meta := meta)] && current == 0 && openElements == []
      requires StackSuffices(TokensAt(text, 0), 1)
      modifies this
      ensures ok == Ends(TokensAt(text, 0))
      ensures IsType(nodes, 0, |nodes|, ParsedType(text, meta))
    {
      openElements := openElements + [current];
      ghost var t := Root(meta);
      while true
        invariant cur <= |text| && IsTree(nodes, current, openElements, t)
        invariant StackSuffices(TokensAt(text, cur), StackSize(t))
        invariant Ends(TokensAt(text, cur)) == Ends(TokensAt(text, 0))
        invariant Finish(t, TokensAt(text, cur)) == Finish(Root(meta), TokensAt(text, 0))
        decreases |text| - cur
      {
        var r;
        r, t := Turn(t);
        if r == EndOfText || r == BadCharacter {
          WholeTree(nodes, current, openElements, t);
          return r == EndOfText;
        }
      }
    }
  }

  /** Seen from the root, the current node and the path to it are the whole tree. */
  lemma {:induction false} WholeType(
      nodes: seq<Node>, cur: nat, path: seq<nat>, node: TypeAst, above: Above)
    requires Focused(nodes, cur, path, node, above)
    ensures IsType(nodes, 0, |nodes|, Whole(node, above))
    decreases above
  {
    if above.Under? {
      GoUp(nodes, cur, path, node, above);
      WholeType(nodes, path[|path| - 1], path[..|path| - 1],
                TypeAst(above.meta, above.name, above.size, Append(above.front, node)), above.above);
    }
  }

  lemma {:induction false} WholeTree(nodes: seq<Node>, cur: nat, stack: seq<nat>, t: Tree)
    requires IsTree(nodes, cur, stack, t)
    ensures IsType(nodes, 0, |nodes|, Whole(t.node, t.above))
  {
    WholeType(nodes, cur, if t.short then stack else stack[1..], t.node, t.above);
  }
}
