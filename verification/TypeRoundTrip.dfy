/** The type parser undoes a recursive printer, and keeps its stack in order. */
module TypeRoundTrip {
  import opened Chars
  import opened Decimals
  import opened TypeParser

  // ---- The stack

  function Opened(ts: Tokens): int {
    if ts.Then? then (if ts.tok.LPar? then 1 else if ts.tok.RPar? then -1 else 0) + Opened(ts.rest) else 0
  }

  /** After any tokens the stack holds one node and as many more as there are open parentheses. */
  lemma {:induction false} StackCounts(t: Tree, ts: Tokens)
    requires StackSuffices(ts, StackSize(t))
    ensures StackSize(Finish(t, ts)) == StackSize(t) + Opened(ts)
    decreases ts
  {
    if ts.Then? {
      StackCounts(Step(t, ts.tok), ts.rest);
    }
  }

  /** No closing parenthesis is one too many when `open` are open. */
  predicate NoSurplus(ts: Tokens, open: nat) {
    ts.Then? ==>
      match ts.tok
      case LPar => NoSurplus(ts.rest, open + 1)
      case RPar => 0 < open && NoSurplus(ts.rest, open - 1)
      case _ => NoSurplus(ts.rest, open)
  }

  /** With no closing parenthesis too many, the root stays on the stack. */
  lemma {:induction false} RootStays(t: Tree, ts: Tokens)
    requires 0 < StackSize(t) && NoSurplus(ts, StackSize(t) - 1)
    ensures StackSuffices(ts, StackSize(t)) && 0 < StackSize(Finish(t, ts))
    decreases ts
  {
    if ts.Then? {
      RootStays(Step(t, ts.tok), ts.rest);
    }
  }

  // ---- Printing

  predicate Letter(c: char) { 'A' <= c <= 'Z' || 'a' <= c <= 'z' }

  predicate Digit(c: char) { '0' <= c <= '9' }

  predicate IsTypeName(s: string) {
    s != "" && Letter(s[0]) && forall c <- s :: Letter(c) || Digit(c)
  }

  /** The four names that are a category of their own. */
  predicate Special(name: string) {
    name == "Array" || name == "Null" || name == "Nullable" || name == "Tuple"
  }

  /** The category is the one that goes with the name; a number has none. */
  predicate Categorized(t: TypeAst) {
    match t.meta
    case Number => t.name == "" && t.size <= INT_MAX
    case Array => t.name == "Array" && t.size == 0
    case Null => t.name == "Null" && t.size == 0
    case Nullable => t.name == "Nullable" && t.size == 0
    case Tuple => t.name == "Tuple" && t.size == 0
    case Terminal => IsTypeName(t.name) && !Special(t.name) && t.size == 0
  }

  predicate Printable(t: TypeAst)
    decreases t
  {
    Categorized(t) && PrintableElements(t.elements)
  }

  predicate PrintableElements(es: Elements)
    decreases es
  {
    es.Append? ==> PrintableElements(es.front) && Printable(es.last)
  }

  function SpellType(t: TypeAst, tail: Tokens): Tokens
    decreases t
  {
    var head := if t.meta == Number then NumberToken(Decimal(t.size)) else NameToken(t.name);
    Then(head, if t.elements.None? then tail else Then(LPar, SpellElements(t.elements, Then(RPar, tail))))
  }

  function SpellElements(es: Elements, tail: Tokens): Tokens
    requires es.Append?
    decreases es
  {
    if es.front.None? then SpellType(es.last, tail)
    else SpellElements(es.front, Then(Comma, SpellType(es.last, tail)))
  }

  // ---- Parsing the tokens of a type

  /** A node no token has touched, but for the category. */
  predicate Untouched(node: TypeAst) {
    node == NEW_TYPE.(meta := node.meta)
  }

  lemma {:induction false} ParseHead(t: Tree, a: TypeAst, rest: Tokens)
    requires Untouched(t.node) && Printable(a)
    ensures Finish(t, Then(SpellType(a, rest).tok, rest)) == Finish(t.(node := a.(elements := None)), rest)
  {
    if a.meta == Number {
      DecimalValue(a.size);
    }
  }

  lemma {:induction false} ParseSpelled(t: Tree, a: TypeAst, tail: Tokens)
    requires Untouched(t.node) && Printable(a)
    ensures Finish(t, SpellType(a, tail)) == Finish(t.(node := a), tail)
    decreases a
  {
    ParseHead(t, a, SpellType(a, tail).rest);
    if a.elements.Append? {
      var head := t.(node := a.(elements := None));
      var end := Then(RPar, tail);
      ParseElements(Lowered(head), a.elements, end);
      assert a == a.(elements := Append(a.elements.front, a.elements.last));
    }
  }

  /** A comma behind an element starts the next one. */
  lemma {:induction false} ParseComma(t: Tree, before: Elements, last: TypeAst, rest: Tokens)
    requires t.node == NEW_TYPE && t.above.Under?
    ensures Finish(t.(node := last, above := t.above.(front := before)), Then(Comma, rest))
         == Finish(t.(above := t.above.(front := Append(before, last))), rest)
  {
    var here := t.(node := last, above := t.above.(front := before));
    assert Step(here, Comma) == t.(above := t.above.(front := Append(before, last)));
  }

  /** Behind an opening parenthesis. */
  lemma {:induction false} ParseElements(t: Tree, es: Elements, tail: Tokens)
    requires t.node == NEW_TYPE && t.above.Under? && t.above.front == None
    requires es.Append? && PrintableElements(es)
    ensures Finish(t, SpellElements(es, tail))
         == Finish(t.(node := es.last, above := t.above.(front := es.front)), tail)
    decreases es
  {
    if es.front.None? {
      ParseSpelled(t, es.last, tail);
    } else {
      var rest := SpellType(es.last, tail);
      ParseElements(t, es.front, Then(Comma, rest));
      ParseComma(t, es.front.front, es.front.last, rest);
      ParseSpelled(t.(above := t.above.(front := es.front)), es.last, tail);
    }
  }

  lemma {:induction false} SpelledNoSurplus(a: TypeAst, tail: Tokens, open: nat)
    requires NoSurplus(tail, open)
    ensures NoSurplus(SpellType(a, tail), open)
    decreases a
  {
    if a.elements.Append? {
      ElementsNoSurplus(a.elements, Then(RPar, tail), open + 1);
    }
  }

  lemma {:induction false} ElementsNoSurplus(es: Elements, tail: Tokens, open: nat)
    requires es.Append? && NoSurplus(tail, open)
    ensures NoSurplus(SpellElements(es, tail), open)
    decreases es
  {
    SpelledNoSurplus(es.last, tail, open);
    if es.front.Append? {
      ElementsNoSurplus(es.front, Then(Comma, SpellType(es.last, tail)), open);
    }
  }

  // ---- Reading the text of a type

  /** Tokens with the blanks in front of each, and those at the end. */
  datatype Spaced = Last(gap: string) | Next(gap: string, tok: TypeToken, rest: Spaced)

  function TokenText(tok: TypeToken): string {
    match tok
    case NameToken(value) => value
    case NumberToken(value) => value
    case LPar => "("
    case RPar => ")"
    case Comma => ","
  }

  function TextOf(sp: Spaced): string {
    match sp
    case Last(gap) => gap
    case Next(gap, tok, rest) => gap + (TokenText(tok) + TextOf(rest))
  }

  function TokensOf(sp: Spaced): Tokens {
    match sp
    case Last(_) => End
    case Next(_, tok, rest) => Then(tok, TokensOf(rest))
  }

  predicate Blank(c: char) { c == ' ' || c == '\n' || c == '\t' || c == '\0' }

  predicate AllBlank(gap: string) {
    forall c <- gap :: Blank(c)
  }

  predicate BlankGaps(sp: Spaced) {
    AllBlank(sp.gap) && (sp.Next? ==> BlankGaps(sp.rest))
  }

  predicate IsWord(tok: TypeToken) {
    tok.NameToken? || tok.NumberToken?
  }

  predicate ProperToken(tok: TypeToken) {
    match tok
    case NameToken(value) => IsTypeName(value)
    case NumberToken(value) => IsNumeral(value)
    case _ => true
  }

  /** Words are proper and do not follow one another. */
  predicate Apart(ts: Tokens) {
    match ts
    case End => true
    case Invalid => false
    case Then(tok, rest) =>
      ProperToken(tok) && !(IsWord(tok) && rest.Then? && IsWord(rest.tok)) && Apart(rest)
  }

  lemma {:induction false} SkipGap(text: string, p: nat, gap: string, rest: string)
    requires p <= |text| && text[p..] == gap + rest && AllBlank(gap)
    ensures p + |gap| <= |text| && text[p + |gap|..] == rest && TokensAt(text, p) == TokensAt(text, p + |gap|)
    decreases gap
  {
    if gap == "" {
      assert gap + rest == rest;
    } else {
      assert text[p] == (gap + rest)[0];
      assert gap[0] in gap;
      assert text[p + 1..] == text[p..][1..] == gap[1..] + rest;
      SkipGap(text, p + 1, gap[1..], rest);
    }
  }

  // ---- Tokens, one at a time

  lemma {:induction false} NameEnd(text: string, p: nat, e: nat)
    requires p <= e <= |text| && forall i :: p <= i < e ==> Letter(text[i]) || Digit(text[i])
    requires e < |text| ==> !Letter(text[e]) && !Digit(text[e])
    ensures AlnumEnd(text, p) == e
    decreases e - p
  {
    if p < e {
      NameEnd(text, p + 1, e);
    }
  }

  lemma {:induction false} NumberEnd(text: string, p: nat, e: nat)
    requires p <= e <= |text| && forall i :: p <= i < e ==> Digit(text[i])
    requires e < |text| ==> !Digit(text[e])
    ensures DigitsEnd(text, p) == e
    decreases e - p
  {
    if p < e {
      NumberEnd(text, p + 1, e);
    }
  }

  /** A letter and all letters and digits behind it are a name. */
  lemma {:induction false} NameRead(text: string, p: nat, e: nat)
    requires p < e <= |text| && Letter(text[p]) && forall i :: p < i < e ==> Letter(text[i]) || Digit(text[i])
    requires e < |text| ==> !Letter(text[e]) && !Digit(text[e])
    ensures TokensAt(text, p) == Then(NameToken(text[p..e]), TokensAt(text, e))
  {
    NameEnd(text, p + 1, e);
  }

  /** Digits are a number, even with a letter behind them. */
  lemma {:induction false} NumberRead(text: string, p: nat, e: nat)
    requires p < e <= |text| && forall i :: p <= i < e ==> Digit(text[i])
    requires e < |text| ==> !Digit(text[e])
    ensures TokensAt(text, p) == Then(NumberToken(text[p..e]), TokensAt(text, e))
  {
    NumberEnd(text, p + 1, e);
  }

  /** What does not continue a word follows a token unless it is a word itself. */
  lemma {:induction false} GapOrSign(sp: Spaced)
    requires BlankGaps(sp) && (sp.Next? ==> !IsWord(sp.tok))
    ensures TextOf(sp) != "" ==> !Letter(TextOf(sp)[0]) && !Digit(TextOf(sp)[0])
  {
    if sp.gap != "" {
      assert sp.gap[0] in sp.gap;
    }
  }

  lemma {:induction false} ReadToken(text: string, p: nat, tok: TypeToken, rest: string)
    requires p <= |text| && text[p..] == TokenText(tok) + rest && ProperToken(tok)
    requires IsWord(tok) && rest != "" ==> !(tok.NameToken? && Letter(rest[0])) && !Digit(rest[0])
    ensures var e := p + |TokenText(tok)|;
            e <= |text| && text[e..] == rest && TokensAt(text, p) == Then(tok, TokensAt(text, e))
  {
    var x := TokenText(tok);
    StartsWith(text, p, x, rest);
    assert forall i :: p <= i < p + |x| ==> text[i] == text[p..p + |x|][i - p];
    assert text[p] == x[0];
    if IsWord(tok) {
      ReadWord(text, p, tok, rest);
    }
  }

  lemma {:induction false} ReadWord(text: string, p: nat, tok: TypeToken, rest: string)
    requires IsWord(tok) && ProperToken(tok) && p + |tok.value| <= |text|
    requires text[p..p + |tok.value|] == tok.value && text[p + |tok.value|..] == rest
    requires rest != "" ==> !(tok.NameToken? && Letter(rest[0])) && !Digit(rest[0])
    ensures TokensAt(text, p) == Then(tok, TokensAt(text, p + |tok.value|))
  {
    var e := p + |tok.value|;
    assert e < |text| ==> text[e] == rest[0];
    assert forall i :: p <= i < e ==> text[i] == text[p..e][i - p] && text[i] in tok.value;
    if tok.NameToken? {
      NameRead(text, p, e);
    } else {
      NumberRead(text, p, e);
    }
  }

  lemma {:induction false} ReadNext(text: string, p: nat, gap: string, tok: TypeToken, rest: Spaced)
    requires p <= |text| && text[p..] == gap + (TokenText(tok) + TextOf(rest))
    requires AllBlank(gap) && BlankGaps(rest) && ProperToken(tok)
    requires IsWord(tok) && rest.Next? ==> !IsWord(rest.tok)
    ensures var e := p + |gap| + |TokenText(tok)|;
            e <= |text| && text[e..] == TextOf(rest) && TokensAt(text, p) == Then(tok, TokensAt(text, e))
  {
    hide TokensAt, TextOf;
    SkipGap(text, p, gap, TokenText(tok) + TextOf(rest));
    if IsWord(tok) {
      GapOrSign(rest);
    }
    ReadToken(text, p + |gap|, tok, TextOf(rest));
  }

  lemma {:induction false} ReadSpaced(text: string, p: nat, sp: Spaced, all: Tokens)
    requires p <= |text| && text[p..] == TextOf(sp) && BlankGaps(sp) && Apart(TokensOf(sp))
    requires all == TokensAt(text, p)
    ensures all == TokensOf(sp)
    decreases sp
  {
    match sp
    case Last(gap) =>
      assert text[p..] == gap + "";
      SkipGap(text, p, gap, "");
    case Next(gap, tok, rest) =>
      assert rest.Next? ==> TokensOf(rest) == Then(rest.tok, TokensOf(rest.rest));
      ReadNext(text, p, gap, tok, rest);
      ReadSpaced(text, p + |gap| + |TokenText(tok)|, rest, all.rest);
  }

  lemma {:induction false} SpelledApart(a: TypeAst, tail: Tokens)
    requires Printable(a) && Apart(tail) && (tail.Then? ==> !IsWord(tail.tok))
    ensures Apart(SpellType(a, tail))
    decreases a
  {
    if a.elements.Append? {
      ElementsApart(a.elements, Then(RPar, tail));
    }
  }

  lemma {:induction false} ElementsApart(es: Elements, tail: Tokens)
    requires es.Append? && PrintableElements(es) && Apart(tail) && (tail.Then? ==> !IsWord(tail.tok))
    ensures Apart(SpellElements(es, tail))
    decreases es
  {
    SpelledApart(es.last, tail);
    if es.front.Append? {
      ElementsApart(es.front, Then(Comma, SpellType(es.last, tail)));
    }
  }

  // ---- Texts that are read to the end

  /** Names, numbers, signs and blanks. */
  predicate TypeChar(c: char) {
    Letter(c) || Digit(c) || Blank(c) || c == '(' || c == ')' || c == ','
  }

  lemma {:induction false} WordStop(text: string, p: nat) returns (e: nat)
    requires p < |text| && (Letter(text[p]) || Digit(text[p]))
    ensures p < e <= |text| && (forall i :: p <= i < e ==> Letter(text[i]) || Digit(text[i]))
    ensures TokensAt(text, p).Then? && TokensAt(text, p).rest == TokensAt(text, e)
  {
    e := if Letter(text[p]) then AlnumEnd(text, p + 1) else DigitsEnd(text, p + 1);
    if Letter(text[p]) {
      AlnumRun(text, p + 1);
    } else {
      DigitRun(text, p + 1);
    }
  }

  lemma {:induction false} AlnumRun(text: string, p: nat)
    requires p <= |text|
    ensures forall i :: p <= i < AlnumEnd(text, p) ==> Letter(text[i]) || Digit(text[i])
    decreases |text| - p
  {
    if p < AlnumEnd(text, p) {
      AlnumRun(text, p + 1);
    }
  }

  lemma {:induction false} DigitRun(text: string, p: nat)
    requires p <= |text|
    ensures forall i :: p <= i < DigitsEnd(text, p) ==> Digit(text[i])
    decreases |text| - p
  {
    if p < DigitsEnd(text, p) {
      DigitRun(text, p + 1);
    }
  }

  /** A type text is read to its end exactly if it holds nothing else. */
  lemma {:induction false} EndsExactly(text: string, p: nat)
    requires p <= |text|
    ensures Ends(TokensAt(text, p)) <==> forall i :: p <= i < |text| ==> TypeChar(text[i])
    decreases |text| - p
  {
    if p < |text| {
      if Letter(text[p]) || Digit(text[p]) {
        var e := WordStop(text, p);
        EndsExactly(text, e);
      } else if TypeChar(text[p]) {
        EndsExactly(text, p + 1);
      }
    }
  }

  /** A number that no `int` holds is the largest that one holds. */
  lemma {:induction false} NumberClamped(n: nat)
    ensures IntOf(Decimal(n)) == if n <= INT_MAX then n else INT_MAX
  {
    DecimalValue(n);
  }

  /** Printed with any blanks between the tokens, a type is parsed as itself, whatever the category of
      the root was before. */
  lemma {:induction false} TypeRoundTrips(a: TypeAst, sp: Spaced, meta: Meta)
    requires Printable(a) && BlankGaps(sp) && TokensOf(sp) == SpellType(a, End)
    ensures Ends(TokensAt(TextOf(sp), 0)) && StackSuffices(TokensAt(TextOf(sp), 0), 1)
    ensures ParsedType(TextOf(sp), meta) == a
  {
    var text := TextOf(sp);
    SpelledApart(a, End);
    assert text[0..] == text;
    ReadSpaced(text, 0, sp, TokensAt(text, 0));
    SpelledNoSurplus(a, End, 0);
    RootStays(Root(meta), TokensOf(sp));
    ApartEnds(TokensOf(sp));
    ParseSpelled(Root(meta), a, End);
  }

  lemma {:induction false} ApartEnds(ts: Tokens)
    requires Apart(ts)
    ensures Ends(ts)
  {
    if ts.Then? {
      ApartEnds(ts.rest);
    }
  }
}
