/** Which tokens a SELECT outside the parentheses of its subquery costs.

    Every machine that stops behind a closing parenthesis its starter did not open makes the starter
    swallow one token and stop as well. */
module LostTokens {
  import opened Chars
  import opened Tokens
  import opened Lexer
  import opened LexerProperties
  import opened ColumnWalk
  import opened ColumnWalkProperties
  import opened ColumnWalkExact

  // ---- Text with its subqueries in parentheses

  /** Tokens in which every SELECT directly follows an opening parenthesis, blanks apart. */
  datatype Nested =
    | Nothing
    | Plain(tok: Token, rest: Nested)
    | Group(open: Token, inner: Nested, close: Token, rest: Nested)
    | Subquery(open: Token, gap: seq<Token>, select: Token, inner: Nested, close: Token, rest: Nested)

  predicate IsPlain(t: Token) {
    t.kind != LPARENT && t.kind != RPARENT && !IsSelect(t)
  }

  predicate AllPlain(ts: seq<Token>) {
    ts == [] || (IsPlain(ts[0]) && AllPlain(ts[1..]))
  }

  predicate WellFormedNested(x: Nested) {
    match x
    case Nothing => true
    case Plain(tok, rest) => IsPlain(tok) && WellFormedNested(rest)
    case Group(open, inner, close, rest) =>
      && open.kind == LPARENT && !IsSelect(open) && close.kind == RPARENT && !IsSelect(close)
      && WellFormedNested(inner) && WellFormedNested(rest)
    case Subquery(open, gap, select, inner, close, rest) =>
      && open.kind == LPARENT && !IsSelect(open) && close.kind == RPARENT && !IsSelect(close)
      && AllPlain(gap) && IsSelect(select)
      && WellFormedNested(inner) && WellFormedNested(rest)
  }

  function SpellPlain(ts: seq<Token>, tail: seq<Token>): seq<Token> {
    if ts == [] then tail else [ts[0]] + SpellPlain(ts[1..], tail)
  }

  function SpellNested(x: Nested, tail: seq<Token>): seq<Token>
    decreases x
  {
    match x
    case Nothing => tail
    case Plain(tok, rest) => [tok] + SpellNested(rest, tail)
    case Group(open, inner, close, rest) => [open] + SpellNested(inner, [close] + SpellNested(rest, tail))
    case Subquery(open, gap, select, inner, close, rest) =>
      [open] + SpellPlain(gap, [select] + SpellNested(inner, [close] + SpellNested(rest, tail)))
  }

  /** No SELECT comes first. */
  predicate NoSelectFirst(ts: seq<Token>) {
    ts != [] ==> !IsSelect(ts[0])
  }

  // ---- Such text is kept

  lemma {:induction false} KeptFirst(levels: Nest, blind: bool, t: Token, ts: seq<Token>)
    requires 0 <= levels.level && (blind || !IsSelect(t))
    ensures t.kind != LPARENT && t.kind != RPARENT ==> Kept(levels, blind, [t] + ts) == [t] + Kept(levels, false, ts)
    ensures t.kind == LPARENT ==>
              Kept(levels, blind, [t] + ts) == [t] + Kept(levels.(level := levels.level + 1), false, ts)
    ensures t.kind == RPARENT && 0 < levels.level ==>
              Kept(levels, blind, [t] + ts) == [t] + Kept(levels.(level := levels.level - 1), false, ts)
    ensures t.kind == RPARENT && levels.level == 0 && levels.Inside? ==>
              Kept(levels, blind, [t] + ts) == [t] + Kept(Outer(levels), true, ts)
  {
    assert ([t] + ts)[1..] == ts;
  }

  lemma {:induction false} KeptSelect(levels: Nest, t: Token, ts: seq<Token>)
    requires 0 <= levels.level && IsSelect(t)
    ensures Kept(levels, false, [t] + ts) == [t] + Kept(Inside(0, levels), false, ts)
  {
    assert ([t] + ts)[1..] == ts;
  }

  lemma {:induction false} BlindSame(levels: Nest, ts: seq<Token>)
    requires 0 <= levels.level && NoSelectFirst(ts)
    ensures Kept(levels, true, ts) == Kept(levels, false, ts)
  {
  }

  lemma {:induction false} PlainKept(levels: Nest, ts: seq<Token>, tail: seq<Token>)
    requires 0 <= levels.level && AllPlain(ts)
    ensures Kept(levels, false, SpellPlain(ts, tail)) == SpellPlain(ts, Kept(levels, false, tail))
  {
    if ts != [] {
      KeptFirst(levels, false, ts[0], SpellPlain(ts[1..], tail));
      PlainKept(levels, ts[1..], tail);
    }
  }

  lemma {:induction false} NestedNoSelect(x: Nested, tail: seq<Token>)
    requires WellFormedNested(x) && NoSelectFirst(tail)
    ensures NoSelectFirst(SpellNested(x, tail))
  {
  }

  lemma {:induction false} NestedKept(levels: Nest, x: Nested, tail: seq<Token>)
    requires 0 <= levels.level && WellFormedNested(x) && NoSelectFirst(tail)
    ensures Kept(levels, false, SpellNested(x, tail)) == SpellNested(x, Kept(levels, false, tail))
    decreases x, 1
  {
    match x
    case Nothing =>
    case Plain(tok, rest) =>
      KeptFirst(levels, false, tok, SpellNested(rest, tail));
      NestedKept(levels, rest, tail);
    case Group(open, inner, close, rest) =>
      var behind := SpellNested(rest, tail);
      var up := levels.(level := levels.level + 1);
      KeptFirst(levels, false, open, SpellNested(inner, [close] + behind));
      NestedKept(up, inner, [close] + behind);
      KeptFirst(up, false, close, behind);
      NestedKept(levels, rest, tail);
    case Subquery(_, _, _, _, _, _) =>
      SubqueryKept(levels, x, tail);
  }

  lemma {:induction false} SubqueryKept(levels: Nest, x: Nested, tail: seq<Token>)
    requires 0 <= levels.level && WellFormedNested(x) && x.Subquery? && NoSelectFirst(tail)
    ensures Kept(levels, false, SpellNested(x, tail)) == SpellNested(x, Kept(levels, false, tail))
    decreases x, 0
  {
    var behind := SpellNested(x.rest, tail);
    var up := levels.(level := levels.level + 1);
    var body := SpellNested(x.inner, [x.close] + behind);
    KeptFirst(levels, false, x.open, SpellPlain(x.gap, [x.select] + body));
    PlainKept(up, x.gap, [x.select] + body);
    KeptSelect(up, x.select, body);
    NestedKept(Inside(0, up), x.inner, [x.close] + behind);
    NestedNoSelect(x.rest, tail);
    ClosedKept(levels, x.close, behind);
    NestedKept(levels, x.rest, tail);
  }

  /** The parenthesis behind a subquery, seen from its machine. */
  lemma {:induction false} ClosedKept(levels: Nest, close: Token, behind: seq<Token>)
    requires 0 <= levels.level && close.kind == RPARENT && !IsSelect(close) && NoSelectFirst(behind)
    ensures Kept(Inside(0, levels.(level := levels.level + 1)), false, [close] + behind)
         == [close] + Kept(levels, false, behind)
  {
    var up := levels.(level := levels.level + 1);
    KeptFirst(Inside(0, up), false, close, behind);
    assert Outer(Inside(0, up)) == levels;
    BlindSame(levels, behind);
  }

  // ---- A subquery of several SELECTs

  /** SELECTs at the same level of a subquery; a plain token, such as the blank behind UNION, stands in
      front of each further one. */
  datatype Selects =
    | Final(select: Token, body: Nested)
    | More(select: Token, body: Nested, last: Token, rest: Selects)

  predicate WellFormedSelects(x: Selects) {
    IsSelect(x.select) && WellFormedNested(x.body) && (x.More? ==> IsPlain(x.last) && WellFormedSelects(x.rest))
  }

  function SpellSelects(x: Selects, tail: seq<Token>): seq<Token> {
    match x
    case Final(select, body) => [select] + SpellNested(body, tail)
    case More(select, body, last, rest) => [select] + SpellNested(body, [last] + SpellSelects(rest, tail))
  }

  /** How many there are behind the first. */
  function Further(x: Selects): nat {
    if x.Final? then 0 else 1 + Further(x.rest)
  }

  /** `k` machines over `levels`, each behind a SELECT of the one below. */
  function Deep(k: nat, levels: Nest): Nest {
    if k == 0 then levels else Inside(0, Deep(k - 1, levels))
  }

  /** The tokens behind the first `k`. */
  function Without(ts: seq<Token>, k: nat): seq<Token> {
    if k <= |ts| then ts[k..] else []
  }

  /** Each of `k` machines swallows a token before those below go on. */
  lemma {:induction false} Swallowed(k: nat, levels: Nest, ts: seq<Token>)
    requires 1 <= levels.level
    ensures var deep := Deep(k, levels);
            Kept(deep.(level := deep.level - 1), true, ts)
              == Kept(levels.(level := levels.level - 1), true, Without(ts, k))
    decreases k
  {
    if k != 0 && ts != [] {
      Swallowed(k - 1, levels, ts[1..]);
      assert Without(ts[1..], k - 1) == Without(ts, k);
    }
  }

  lemma {:induction false} LastKept(
      j: nat, levels: Nest, select: Token, body: Nested, close: Token, behind: seq<Token>)
    requires 1 <= levels.level && IsSelect(select) && WellFormedNested(body)
    requires close.kind == RPARENT && !IsSelect(close)
    ensures Kept(Deep(j, levels), false, [select] + SpellNested(body, [close] + behind))
         == [select] + SpellNested(body, [close] + Kept(levels.(level := levels.level - 1), true, Without(behind, j)))
  {
    var deep := Deep(j + 1, levels);
    KeptSelect(Deep(j, levels), select, SpellNested(body, [close] + behind));
    NestedKept(deep, body, [close] + behind);
    CloseKept(j, levels, close, behind);
  }

  /** The parenthesis that closes the subquery, and what is swallowed behind it. */
  lemma {:induction false} CloseKept(j: nat, levels: Nest, close: Token, behind: seq<Token>)
    requires 1 <= levels.level && close.kind == RPARENT && !IsSelect(close)
    ensures Kept(Deep(j + 1, levels), false, [close] + behind)
         == [close] + Kept(levels.(level := levels.level - 1), true, Without(behind, j))
  {
    KeptFirst(Deep(j + 1, levels), false, close, behind);
    Swallowed(j, levels, behind);
  }

  lemma {:induction false} FirstKept(
      j: nat, levels: Nest, select: Token, body: Nested, last: Token, next: seq<Token>)
    requires 1 <= levels.level && IsSelect(select) && WellFormedNested(body) && IsPlain(last)
    ensures Kept(Deep(j, levels), false, [select] + SpellNested(body, [last] + next))
         == [select] + SpellNested(body, [last] + Kept(Deep(j + 1, levels), false, next))
  {
    var deep := Deep(j + 1, levels);
    KeptSelect(Deep(j, levels), select, SpellNested(body, [last] + next));
    NestedKept(deep, body, [last] + next);
    KeptFirst(deep, false, last, next);
  }

  lemma {:induction false} MoreSpelled(x: Selects, tail: seq<Token>, next: seq<Token>)
    requires x.More? && next == SpellSelects(x.rest, tail)
    ensures SpellSelects(x, tail) == [x.select] + SpellNested(x.body, [x.last] + next)
  {
  }

  lemma {:induction false} SelectsKept(
      j: nat, levels: Nest, x: Selects, close: Token, behind: seq<Token>, k: nat, left: seq<Token>)
    requires 1 <= levels.level && WellFormedSelects(x) && close.kind == RPARENT && !IsSelect(close)
    requires k == j + Further(x) && left == Kept(levels.(level := levels.level - 1), true, Without(behind, k))
    ensures Kept(Deep(j, levels), false, SpellSelects(x, [close] + behind)) == SpellSelects(x, [close] + left)
    decreases x
  {
    match x
    case Final(select, body) =>
      LastKept(j, levels, select, body, close, behind);
    case More(select, body, last, rest) =>
      var next := SpellSelects(rest, [close] + behind);
      FirstKept(j, levels, select, body, last, next);
      SelectsKept(j + 1, levels, rest, close, behind, k, left);
      MoreSpelled(x, [close] + behind, next);
      MoreSpelled(x, [close] + left, SpellSelects(rest, [close] + left));
  }

  lemma {:induction false} FurtherSelectsKept(
      front: Nested, open: Token, gap: seq<Token>, x: Selects, close: Token, behind: seq<Token>)
    requires WellFormedNested(front) && AllPlain(gap) && WellFormedSelects(x)
    requires open.kind == LPARENT && !IsSelect(open) && close.kind == RPARENT && !IsSelect(close)
    ensures Kept(Outermost(0), false, SpellNested(front, [open] + SpellPlain(gap, SpellSelects(x, [close] + behind))))
         == SpellNested(front, [open] + SpellPlain(gap, SpellSelects(x,
              [close] + Kept(Outermost(0), true, Without(behind, Further(x))))))
  {
    var inner := SpellSelects(x, [close] + behind);
    NestedKept(Outermost(0), front, [open] + SpellPlain(gap, inner));
    KeptFirst(Outermost(0), false, open, SpellPlain(gap, inner));
    PlainKept(Outermost(1), gap, inner);
    SelectsKept(0, Outermost(1), x, close, behind, Further(x), Kept(Outermost(0), true, Without(behind, Further(x))));
  }

  /** A query that has, behind well-nested text, a subquery of `k` SELECTs more than one loses exactly the `k` tokens
      behind the closing parenthesis of that subquery, before it goes on as if they had not been there. */
  lemma {:induction false} FurtherSelectsLoseTokens(
      select: Token, front: Nested, open: Token, gap: seq<Token>, x: Selects, close: Token, behind: seq<Token>)
    requires IsSelect(select) && WellFormedNested(front) && AllPlain(gap) && WellFormedSelects(x)
    requires open.kind == LPARENT && !IsSelect(open) && close.kind == RPARENT && !IsSelect(close)
    requires var ts := [select] + SpellNested(front, [open] + SpellPlain(gap, SpellSelects(x, [close] + behind)));
             Spelled(ts)
    ensures var ts := [select] + SpellNested(front, [open] + SpellPlain(gap, SpellSelects(x, [close] + behind)));
            var left := Kept(Outermost(0), true, Without(behind, Further(x)));
            Toks(Machine(ts).out)
              == [select] + SpellNested(front, [open] + SpellPlain(gap, SpellSelects(x, [close] + left)))
  {
    var rest := SpellNested(front, [open] + SpellPlain(gap, SpellSelects(x, [close] + behind)));
    assert ([select] + rest)[1..] == rest;
    TokensWritten([select] + rest);
    FurtherSelectsKept(front, open, gap, x, close, behind);
  }
}
