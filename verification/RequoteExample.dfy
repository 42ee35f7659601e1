/** Two queries that lose text, from their characters to what is left of them. */
module RequoteExample {
  import opened Chars
  import opened Tokens
  import opened Lexer
  import opened LexerProperties
  import opened LexerPrinting
  import opened ColumnWalk
  import opened ColumnWalkExact
  import opened RequotedText
  import opened LostTokens
  import opened TextSteps

  const SELECT := Token(IDENT, "SELECT")
  const FROM := Token(IDENT, "FROM")
  const UNION := Token(IDENT, "UNION")

  /** A name of one letter. */
  function Name(c: char): Token { Token(IDENT, [c]) }

  predicate IsName(c: char) { c == 'a' || c == 'b' || c == 'c' || c == 'x' }

  lemma {:induction false} NameStands(c: char, next: string)
    requires IsName(c) && (next == " " || next == ")" || next == "")
    ensures StandsAlone(Name(c), next)
  {
    var s := [c] + next;
    assert IdentEnd(s, 1) == 1;
    assert s[0..1] == [c];
    assert ToUpper([c]) == [UpperChar(c)];
  }

  lemma {:induction false} WordStands(t: Token, next: string)
    requires t == SELECT || t == FROM || t == UNION
    requires next == " " || next == "("
    ensures StandsAlone(t, next)
  {
    var n := |t.literal|;
    WordEnd(t.literal + next, 1, n);
    assert (t.literal + next)[0..n] == t.literal;
    WordKind(t);
  }

  lemma {:induction false} WordKind(t: Token)
    requires t == SELECT || t == FROM || t == UNION
    ensures LookupIdent(ToUpper(t.literal)) == IDENT
  {
    assert ToUpper(t.literal) == t.literal;
  }

  // ---- A surplus parenthesis

  /** `SELECT a)x` */
  function SurplusTokens(): seq<Token> {
    [SELECT] + ([BLANK] + ([Name('a')] + ([RIGHT] + ([Name('x')] + []))))
  }

  function SurplusText(): string { "SELECT" + (" " + ("a" + (")" + ("x" + "")))) }

  lemma {:induction false} SurplusStands()
    ensures Prints(SurplusTokens(), SurplusText())
  {
    NameStands('x', "");
    InFront(Name('x'), [], "", "");
    SignInFront(RIGHT, [Name('x')] + [], "x" + "");
    NameStands('a', ")");
    var t2, x2 := [RIGHT] + ([Name('x')] + []), ")" + ("x" + "");
    InFront(Name('a'), t2, x2, ")");
    SignInFront(BLANK, [Name('a')] + t2, "a" + x2);
    WordStands(SELECT, " ");
    InFront(SELECT, [BLANK] + ([Name('a')] + t2), " " + ("a" + x2), " ");
  }

  lemma {:induction false} NamesPlain()
    ensures IsPlain(BLANK) && IsPlain(FROM) && IsPlain(UNION) && IsSelect(SELECT)
    ensures forall c :: IsName(c) ==> IsPlain(Name(c))
    ensures !IsSelect(LEFT) && !IsSelect(RIGHT)
  {
    assert ToUpper("SELECT") == "SELECT";
    assert ToUpper("UNION") == "UNION";
  }

  lemma {:induction false} SurplusKept()
    ensures Kept(Outermost(0), false, SurplusTokens()[1..]) == [BLANK] + ([Name('a')] + [RIGHT])
  {
    NamesPlain();
    var t2 := [RIGHT] + ([Name('x')] + []);
    assert SurplusTokens()[1..] == [BLANK] + ([Name('a')] + t2);
    KeptFirst(Outermost(0), false, BLANK, [Name('a')] + t2);
    KeptFirst(Outermost(0), false, Name('a'), t2);
  }

  /** A query without double quotes, its tokens and those of them that are kept. */
  lemma {:induction false} WhatIsLeft(query: string, ts: seq<Token>, kept: seq<Token>)
    requires VERTICAL_TAB !in query && Prints(ts, query)
    requires ts != [] && IsSelect(ts[0]) && '"' !in query
    requires kept == [ts[0]] + Kept(Outermost(0), false, ts[1..])
    ensures UnquoteColumns(query) == Flatten(kept)
  {
    ReadBack(query, ts);
    UnquotedExactly(query);
  }

  lemma {:induction false} FlattenFront(t: Token, rest: seq<Token>, text: string)
    requires Flatten(rest) == text
    ensures Flatten([t] + rest) == t.literal + text
  {
    assert ([t] + rest)[1..] == rest;
  }

  lemma {:induction false} SurplusLeft()
    ensures Flatten([SELECT] + ([BLANK] + ([Name('a')] + [RIGHT]))) == "SELECT" + (" " + ("a" + (")" + "")))
  {
    assert [RIGHT] + [] == [RIGHT];
    FlattenFront(RIGHT, [], "");
    FlattenFront(Name('a'), [RIGHT], ")" + "");
    FlattenFront(BLANK, [Name('a')] + [RIGHT], "a" + (")" + ""));
    FlattenFront(SELECT, [BLANK] + ([Name('a')] + [RIGHT]), " " + ("a" + (")" + "")));
  }

  lemma {:induction false} SurplusLoses(query: string)
    requires VERTICAL_TAB !in query && '"' !in query && query == SurplusText()
    ensures UnquoteColumns(query) == "SELECT" + (" " + ("a" + (")" + "")))
  {
    SurplusStands();
    NamesPlain();
    SurplusKept();
    SurplusLeft();
    WhatIsLeft(query, SurplusTokens(), [SELECT] + ([BLANK] + ([Name('a')] + [RIGHT])));
  }

  lemma {:induction false} SurplusWritten()
    ensures SurplusText() == "SELECT a)x" && "SELECT" + (" " + ("a" + (")" + ""))) == "SELECT a)"
  {
  }

  /** What follows the surplus parenthesis is gone. */
  lemma {:induction false} SurplusExample()
    ensures UnquoteColumns("SELECT a)x") == "SELECT a)"
  {
    SurplusWritten();
    SurplusLoses("SELECT a)x");
  }

  // ---- A union in a subquery

  /** `SELECT a FROM(SELECT b UNION SELECT c)`, and what follows it. */
  function UnionHalf(tail: seq<Token>): seq<Token> {
    [SELECT] + ([BLANK] + ([Name('c')] + ([RIGHT] + tail)))
  }

  function UnionTokens(tail: seq<Token>): seq<Token> {
    [SELECT] + ([BLANK] + ([Name('a')] + ([BLANK] + ([FROM] + ([LEFT] + ([SELECT] + ([BLANK] + ([Name('b')]
      + ([BLANK] + ([UNION] + ([BLANK] + UnionHalf(tail))))))))))))
  }

  function UnionHalfText(text: string): string {
    "SELECT" + (" " + ("c" + (")" + text)))
  }

  function UnionInside(text: string): string {
    "(" + ("SELECT" + (" " + ("b" + (" " + ("UNION" + (" " + UnionHalfText(text)))))))
  }

  function UnionText(text: string): string {
    "SELECT" + (" " + ("a" + (" " + ("FROM" + UnionInside(text)))))
  }

  lemma {:induction false} HalfStands(tail: seq<Token>, text: string)
    requires Prints(tail, text)
    ensures Prints(UnionHalf(tail), UnionHalfText(text))
  {
    SignInFront(RIGHT, tail, text);
    NameStands('c', ")");
    InFront(Name('c'), [RIGHT] + tail, ")" + text, ")");
    SignInFront(BLANK, [Name('c')] + ([RIGHT] + tail), "c" + (")" + text));
    WordStands(SELECT, " ");
    InFront(SELECT, [BLANK] + ([Name('c')] + ([RIGHT] + tail)), " " + ("c" + (")" + text)), " ");
  }

  lemma {:induction false} InsideStands(tail: seq<Token>, text: string)
    requires Prints(tail, text)
    ensures var ts := [LEFT] + ([SELECT] + ([BLANK] + ([Name('b')]
                        + ([BLANK] + ([UNION] + ([BLANK] + UnionHalf(tail)))))));
            Prints(ts, UnionInside(text))
    ensures FirstOf(UnionInside(text)) == "("
  {
    HalfStands(tail, text);
    var t1, x1 := [BLANK] + UnionHalf(tail), " " + UnionHalfText(text);
    SignInFront(BLANK, UnionHalf(tail), UnionHalfText(text));
    WordStands(UNION, " ");
    InFront(UNION, t1, x1, " ");
    SignInFront(BLANK, [UNION] + t1, "UNION" + x1);
    NameStands('b', " ");
    var t2, x2 := [BLANK] + ([UNION] + t1), " " + ("UNION" + x1);
    InFront(Name('b'), t2, x2, " ");
    SignInFront(BLANK, [Name('b')] + t2, "b" + x2);
    WordStands(SELECT, " ");
    var t3, x3 := [BLANK] + ([Name('b')] + t2), " " + ("b" + x2);
    InFront(SELECT, t3, x3, " ");
    SignInFront(LEFT, [SELECT] + t3, "SELECT" + x3);
  }

  lemma {:induction false} UnionStands(tail: seq<Token>, text: string)
    requires Prints(tail, text)
    ensures Prints(UnionTokens(tail), UnionText(text))
  {
    InsideStands(tail, text);
    var t1 := [LEFT] + ([SELECT] + ([BLANK] + ([Name('b')] + ([BLANK] + ([UNION] + ([BLANK] + UnionHalf(tail)))))));
    var x1 := UnionInside(text);
    WordStands(FROM, "(");
    InFront(FROM, t1, x1, "(");
    SignInFront(BLANK, [FROM] + t1, "FROM" + x1);
    NameStands('a', " ");
    InFront(Name('a'), [BLANK] + ([FROM] + t1), " " + ("FROM" + x1), " ");
    var t2, x2 := [Name('a')] + ([BLANK] + ([FROM] + t1)), "a" + (" " + ("FROM" + x1));
    SignInFront(BLANK, t2, x2);
    WordStands(SELECT, " ");
    InFront(SELECT, [BLANK] + t2, " " + x2, " ");
  }

  /** The tokens as a query with a subquery of two SELECTs. */
  const FRONT := Plain(BLANK, Plain(Name('a'), Plain(BLANK, Plain(FROM, Nothing))))
  const FIRST_HALF := Plain(BLANK, Plain(Name('b'), Plain(BLANK, Plain(UNION, Nothing))))
  const HALVES := More(SELECT, FIRST_HALF, BLANK, Final(SELECT, Plain(BLANK, Plain(Name('c'), Nothing))))

  lemma {:induction false} UnionSpelled(tail: seq<Token>)
    ensures [SELECT] + SpellNested(FRONT, [LEFT] + SpellPlain([], SpellSelects(HALVES, [RIGHT] + tail)))
         == UnionTokens(tail)
  {
    var t := SpellSelects(HALVES, [RIGHT] + tail);
    HalvesSpelled(tail);
    assert SpellPlain([], t) == t;
    FrontSpelled([LEFT] + t);
  }

  lemma {:induction false} FrontSpelled(tail: seq<Token>)
    ensures SpellNested(FRONT, tail) == [BLANK] + ([Name('a')] + ([BLANK] + ([FROM] + tail)))
  {
  }

  lemma {:induction false} HalvesSpelled(tail: seq<Token>)
    ensures SpellSelects(HALVES, [RIGHT] + tail)
         == [SELECT] + ([BLANK] + ([Name('b')] + ([BLANK] + ([UNION] + ([BLANK] + UnionHalf(tail))))))
  {
    assert SpellSelects(HALVES.rest, [RIGHT] + tail) == UnionHalf(tail);
  }

  lemma {:induction false} UnionWellFormed()
    ensures WellFormedNested(FRONT) && WellFormedSelects(HALVES) && Further(HALVES) == 1
  {
    NamesPlain();
    assert WellFormedNested(FIRST_HALF);
    assert WellFormedSelects(HALVES.rest);
  }

  /** Of the tokens behind the parenthesis the first is lost. */
  lemma {:induction false} UnionKept(tail: seq<Token>)
    requires |tail| == 1
    ensures [SELECT] + Kept(Outermost(0), false, UnionTokens(tail)[1..]) == UnionTokens([])
  {
    UnionSpelled(tail);
    UnionSpelled([]);
    UnionWellFormed();
    NamesPlain();
    FurtherSelectsKept(FRONT, LEFT, [], HALVES, RIGHT, tail);
  }

  lemma {:induction false} UnionLoses(query: string)
    requires VERTICAL_TAB !in query && '"' !in query && query == UnionText("x" + "")
    ensures UnquoteColumns(query) == UnionText("")
  {
    var tail := [Name('x')] + [];
    NameStands('x', "");
    InFront(Name('x'), [], "", "");
    UnionStands(tail, "x" + "");
    UnionStands([], "");
    NamesPlain();
    UnionKept(tail);
    WhatIsLeft(query, UnionTokens(tail), UnionTokens([]));
  }

  lemma {:induction false} UnionWritten()
    ensures UnionText("x" + "") == "SELECT a FROM(SELECT b UNION SELECT c)x"
  {
  }

  lemma {:induction false} UnionLeft()
    ensures UnionText("") == "SELECT a FROM(SELECT b UNION SELECT c)"
  {
  }

  lemma {:induction false} UnionClean()
    ensures VERTICAL_TAB !in "SELECT a FROM(SELECT b UNION SELECT c)x"
    ensures '"' !in "SELECT a FROM(SELECT b UNION SELECT c)x"
  {
  }

  /** The alias of a subquery with a UNION in it is gone. */
  lemma {:induction false} UnionExample(query: string)
    requires query == "SELECT a FROM(SELECT b UNION SELECT c)x"
    ensures Lexable(query, 0) && UnquoteColumns(query) == "SELECT a FROM(SELECT b UNION SELECT c)"
  {
    UnionWritten();
    UnionLeft();
    UnionClean();
    UnionLoses(query);
  }
}
