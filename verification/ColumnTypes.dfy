/** What a parsed type says about a column. */
module ColumnTypes {
  import opened TypeParser

  datatype ColumnInfo = ColumnInfo(
    name: string, kind: string, withoutParameters: string, displaySize: nat, fixedSize: nat, isNullable: bool)

  const NEW_COLUMN := ColumnInfo("", "", "", 0, 0, false)

  function First(es: Elements): TypeAst
    requires es.Append?
  {
    if es.front.None? then es.last else First(es.front)
  }

  /** Every `Nullable` on the way down has an argument. */
  predicate NullablesApply(t: TypeAst)
    decreases t
  {
    t.meta == Nullable ==> t.elements.Append? && FirstApplies(t.elements)
  }

  predicate FirstApplies(es: Elements)
    requires es.Append?
    decreases es
  {
    if es.front.None? then NullablesApply(es.last) else FirstApplies(es.front)
  }

  /** The type below all `Nullable`s. */
  function Underlying(t: TypeAst): TypeAst
    decreases t
  {
    if t.meta == Nullable && t.elements.Append? then UnderlyingFirst(t.elements) else t
  }

  function UnderlyingFirst(es: Elements): TypeAst
    requires es.Append?
    decreases es
  {
    if es.front.None? then Underlying(es.last) else UnderlyingFirst(es.front)
  }

  /** A column of type `t`: the name of a plain type without its parameters, a sole parameter as the
      size, and "String" for everything else. */
  function Described(t: TypeAst, info: ColumnInfo): ColumnInfo {
    var u := Underlying(t);
    var known := info.(isNullable := info.isNullable || t.meta == Nullable);
    if u.meta == Terminal then
      known.(withoutParameters := u.name,
             fixedSize := if u.elements.Append? && u.elements.front.None? then u.elements.last.size else info.fixedSize)
    else known.(withoutParameters := "String")
  }

  /** A column whose type is given as text; `unset` is the category an untouched root has. */
  function DescribedBy(text: string, unset: Meta, info: ColumnInfo): ColumnInfo {
    if Ends(TokensAt(text, 0)) then Described(ParsedType(text, unset), info)
    else info.(withoutParameters := "String")
  }

  /** A type text that can be read without touching an element that is not there. */
  predicate Readable(text: string, unset: Meta) {
    && StackSuffices(TokensAt(text, 0), 1)
    && (Ends(TokensAt(text, 0)) ==> NullablesApply(ParsedType(text, unset)))
  }

  // ---- Reading the tree in memory

  lemma {:induction false} FirstNode(nodes: seq<Node>, ids: seq<nat>, lo: nat, hi: nat, es: Elements)
    returns (end: nat)
    requires AreElements(nodes, ids, lo, hi, es) && es.Append?
    ensures ids != [] && IsType(nodes, ids[0], end, First(es))
    ensures |ids| == 1 <==> es.front.None?
    decreases es
  {
    if es.front.None? {
      end := hi;
    } else {
      end := FirstNode(nodes, ids[..|ids| - 1], lo, ids[|ids| - 1], es.front);
    }
  }

  lemma {:induction false} FirstSteps(es: Elements)
    requires es.Append?
    ensures FirstApplies(es) == NullablesApply(First(es)) && UnderlyingFirst(es) == Underlying(First(es))
    ensures First(es) < es
    decreases es
  {
    if es.front.Append? {
      FirstSteps(es.front);
    }
  }

  method AssignTypeInfo(nodes: seq<Node>, i: nat, ghost hi: nat, ghost t: TypeAst, info: ColumnInfo)
    returns (result: ColumnInfo)
    requires IsType(nodes, i, hi, t) && NullablesApply(t)
    ensures result == Described(t, info)
    ensures result.isNullable <==> info.isNullable || t.meta == Nullable
    ensures t.meta == Terminal ==> result.withoutParameters == t.name
    ensures t.meta != Terminal && t.meta != Nullable ==> result.withoutParameters == "String"
    decreases t
  {
    var ast := nodes[i];
    ghost var end := hi;
    if t.elements.Append? {
      end := FirstNode(nodes, ast.elements, i + 1, hi, t.elements);
      FirstSteps(t.elements);
    }
    if ast.meta == Terminal {
      result := info.(withoutParameters := ast.name);
      if |ast.elements| == 1 {
        result := result.(fixedSize := nodes[ast.elements[0]].size);
      }
    } else if ast.meta == Nullable {
      result := AssignTypeInfo(nodes, ast.elements[0], end, First(t.elements), info.(isNullable := true));
    } else {
      result := info.(withoutParameters := "String");
    }
  }

  /** Parses the type of a column and fills in what it says. */
  method DescribeColumn(info: ColumnInfo, unset: Meta) returns (result: ColumnInfo)
    requires Readable(info.kind, unset)
    ensures result == DescribedBy(info.kind, unset, info)
  {
    var parser := new TypeParser(info.kind, unset);
    var parsed := parser.Parse(unset);
    if parsed {
      result := AssignTypeInfo(parser.nodes, 0, |parser.nodes|, ParsedType(info.kind, unset), info);
    } else {
      result := info.(withoutParameters := "String");
    }
  }
}
