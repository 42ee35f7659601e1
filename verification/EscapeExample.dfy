/** Escape sequences read, rewritten and compared character by character. */
module EscapeExample {
  import opened Chars
  import opened FunctionDeclare
  import opened Tokens
  import opened Lexer
  import opened LexerPrinting
  import opened TextSteps
  import opened EscapeSequences
  import opened EscapeTrees
  import opened EscapeTranslation
  import EscapeProperties

  lemma {:induction false} NoGap(t: Token, tail: seq<Token>)
    ensures SpellPadded(Padded([], t), tail) == [t] + tail
  {
  }

  lemma {:induction false} OneBlank(t: Token, tail: seq<Token>)
    ensures SpellPadded(Padded([BLANK], t), tail) == [BLANK] + ([t] + tail)
  {
  }

  /** An escape of one item with the brace directly behind it. */
  function OneItem(key: Padded, item: ItemTree): EscapeTree {
    EscapeTree(OPEN, MoreItems(key, item, NoItems), Padded([], CLOSE))
  }

  lemma {:induction false} SpellOneItem(key: Padded, item: ItemTree, tail: seq<Token>)
    ensures SpellEscape(OneItem(key, item), tail) == [OPEN] + SpellPadded(key, SpellItem(item, [CLOSE] + tail))
  {
    NoGap(CLOSE, tail);
    assert SpellItems(NoItems, [CLOSE] + tail) == [CLOSE] + tail;
  }

  lemma {:induction false} OneItemMeaning(src: string, key: Padded, item: ItemTree)
    ensures Meaning(src, OneItem(key, item)) == MeaningOfItem(src, key.tok.kind, item)
  {
    assert MeaningOfItems(src, NoItems) == "";
    assert MeaningOfItem(src, key.tok.kind, item) + "" == MeaningOfItem(src, key.tok.kind, item);
  }

  lemma {:induction false} OneItemWellFormed(key: Padded, item: ItemTree)
    requires key.tok.kind == FN && Blanks(key.gap) && WellFormedFunction(item, false, Padded([], CLOSE))
    ensures WellFormed(OneItem(key, item))
  {
    assert WellFormedItems(NoItems, EmitBehind(item, false), Padded([], CLOSE));
  }

  /** A text whose tokens stand apart and spell a tree is rewritten to the tree's meaning. */
  lemma {:induction false} TextTranslates(e: EscapeTree, ts: seq<Token>, text: string, meaning: string)
    requires WellFormed(e) && Meaning(text, e) == meaning && SpellEscape(e, []) == ts
    requires Prints(ts, text) && VERTICAL_TAB !in text
    ensures RewriteSequence(text) == meaning
  {
    PrintedTreeTranslates(text, e, []);
  }

  // ---- A date

  const DATE := Token(STRING, "'2020-01-01'")
  const DATE_WORD := Token(D, "d")

  /** `{d '2020-01-01'}` */
  const DATE_ESCAPE := OneItem(Padded([], DATE_WORD), ItemTree.Literal(Padded([BLANK], DATE)))

  lemma {:induction false} DateWord()
    ensures Word(DATE_WORD)
  {
    assert ToUpper("d") == "D";
  }

  lemma {:induction false} DateStands()
    ensures StandsAlone(DATE, "}")
  {
    var s := DATE.literal + "}";
    assert s == "'2020-01-01'}";
    StringEnds(s, 1, 11);
  }

  function DateTokens(tail: seq<Token>): seq<Token> {
    [OPEN] + ([DATE_WORD] + ([BLANK] + ([DATE] + ([CLOSE] + tail))))
  }

  function DateText(text: string): string {
    "{" + ("d" + (" " + ("'2020-01-01'" + ("}" + text))))
  }

  lemma {:induction false} DateInFront(tail: seq<Token>, text: string)
    requires Prints(tail, text)
    ensures Prints(DateTokens(tail), DateText(text)) && FirstOf(DateText(text)) == "{"
  {
    SignInFront(CLOSE, tail, text);
    DateStands();
    InFront(DATE, [CLOSE] + tail, "}" + text, "}");
    DateWord();
    WordInBraces(DATE_WORD, [DATE] + ([CLOSE] + tail), "'2020-01-01'" + ("}" + text));
  }

  /** `{`, a word and a blank in front. */
  lemma {:induction false} WordInBraces(t: Token, rest: seq<Token>, text: string)
    requires Word(t) && Prints(rest, text)
    ensures Prints([OPEN] + ([t] + ([BLANK] + rest)), "{" + (t.literal + (" " + text)))
    ensures FirstOf("{" + (t.literal + (" " + text))) == "{"
  {
    SignInFront(BLANK, rest, text);
    WordInFront(t, [BLANK] + rest, " " + text);
    SignInFront(OPEN, [t] + ([BLANK] + rest), t.literal + (" " + text));
  }

  lemma {:induction false} DateSpelled(tail: seq<Token>)
    ensures SpellEscape(DATE_ESCAPE, tail) == DateTokens(tail)
  {
    var key, lit := Padded([], DATE_WORD), Padded([BLANK], DATE);
    SpellOneItem(key, ItemTree.Literal(lit), tail);
    OneBlank(DATE, [CLOSE] + tail);
    NoGap(DATE_WORD, [BLANK] + ([DATE] + ([CLOSE] + tail)));
    LiteralSpelled(lit, [CLOSE] + tail);
  }

  lemma {:induction false} LiteralSpelled(lit: Padded, tail: seq<Token>)
    ensures SpellItem(ItemTree.Literal(lit), tail) == SpellPadded(lit, tail)
  {
  }

  lemma {:induction false} DateWellFormed()
    ensures WellFormed(DATE_ESCAPE)
  {
    assert WellFormedItems(NoItems, false, DATE_ESCAPE.close);
  }

  lemma {:induction false} DateMeaning(src: string)
    ensures Meaning(src, DATE_ESCAPE) == "'2020-01-01'"
  {
    OneItemMeaning(src, Padded([], DATE_WORD), ItemTree.Literal(Padded([BLANK], DATE)));
  }

  lemma {:induction false} DateWritten()
    ensures DateText("") == "{d '2020-01-01'}" && VERTICAL_TAB !in "{d '2020-01-01'}"
  {
  }

  /** A date literal. */
  lemma {:induction false} DateExample()
    ensures RewriteSequence("{d '2020-01-01'}") == "'2020-01-01'"
  {
    NoTokens();
    DateInFront([], "");
    DateSpelled([]);
    DateWellFormed();
    DateMeaning("{d '2020-01-01'}");
    DateWritten();
    TextTranslates(DATE_ESCAPE, DateTokens([]), "{d '2020-01-01'}", "'2020-01-01'");
  }

  // ---- Calls

  const FN_WORD := Token(FN, "fn")

  /** `{fn NAME(...` */
  function CallTokens(name: Token, rest: seq<Token>): seq<Token> {
    [OPEN] + ([FN_WORD] + ([BLANK] + ([name] + ([LEFT] + rest))))
  }

  function CallText(name: string, text: string): string {
    "{" + ("fn" + (" " + (name + ("(" + text))))
  }

  lemma {:induction false} FnWord()
    ensures Word(FN_WORD)
  {
    FnLookup();
  }

  lemma {:induction false} FnLookup()
    ensures LookupIdent(ToUpper("fn")) == FN
  {
    assert ToUpper("fn") == "FN";
  }

  lemma {:induction false} CallInFront(name: Token, rest: seq<Token>, text: string)
    requires Word(name) && Prints(rest, text)
    ensures Prints(CallTokens(name, rest), CallText(name.literal, text))
    ensures FirstOf(CallText(name.literal, text)) == "{"
  {
    SignInFront(LEFT, rest, text);
    WordInFront(name, [LEFT] + rest, "(" + text);
    FnWord();
    WordInBraces(FN_WORD, [name] + ([LEFT] + rest), name.literal + ("(" + text));
  }

  /** The keyword and the name of such a call as they are spelled. */
  const FN_KEY := Padded([], FN_WORD)

  function NameOf(name: Token): Padded { Padded([BLANK], name) }

  lemma {:induction false} CallSpelled(name: Token, rest: seq<Token>)
    ensures CallTokens(name, rest)
         == [OPEN] + SpellPadded(FN_KEY, SpellPadded(NameOf(name), SpellPadded(Padded([], LEFT), rest)))
  {
    NoGap(LEFT, rest);
    OneBlank(name, [LEFT] + rest);
    NoGap(FN_WORD, [BLANK] + ([name] + ([LEFT] + rest)));
  }

  lemma {:induction false} EndTokens(rest: seq<Token>, text: string)
    requires Prints(rest, text)
    ensures Prints([RIGHT] + ([CLOSE] + rest), ")" + ("}" + text))
    ensures FirstOf(")" + ("}" + text)) == ")"
  {
    SignInFront(CLOSE, rest, text);
    SignInFront(RIGHT, [CLOSE] + rest, "}" + text);
  }

  // ---- A date nested in a call

  const TRIM := Token(LTRIM, "LTRIM")

  /** `{fn LTRIM({d '2020-01-01'})}` */
  const TRIM_ITEM := LtrimCall(NameOf(TRIM), Padded([], LEFT), Braced([], DATE_ESCAPE), Padded([], RIGHT))
  const TRIM_ESCAPE := OneItem(FN_KEY, TRIM_ITEM)

  lemma {:induction false} TrimWord()
    ensures Word(TRIM)
  {
    TrimLookup();
  }

  lemma {:induction false} TrimLookup()
    ensures LookupIdent(ToUpper("LTRIM")) == LTRIM
  {
    assert ToUpper("LTRIM") == "LTRIM";
  }

  lemma {:induction false} TrimReads()
    ensures Prints(CallTokens(TRIM, DateTokens([RIGHT] + ([CLOSE] + []))),
                   CallText("LTRIM", DateText(")" + ("}" + ""))))
  {
    NoTokens();
    EndTokens([], "");
    DateInFront([RIGHT] + ([CLOSE] + []), ")" + ("}" + ""));
    TrimWord();
    CallInFront(TRIM, DateTokens([RIGHT] + ([CLOSE] + [])), DateText(")" + ("}" + "")));
  }

  lemma {:induction false} TrimSpelled()
    ensures SpellEscape(TRIM_ESCAPE, []) == CallTokens(TRIM, DateTokens([RIGHT] + ([CLOSE] + [])))
  {
    var t1 := [RIGHT] + ([CLOSE] + []);
    SpellOneItem(FN_KEY, TRIM_ITEM, []);
    NoGap(RIGHT, [CLOSE] + []);
    DateSpelled(t1);
    assert SpellOperand(Braced([], DATE_ESCAPE), t1) == DateTokens(t1);
    CallSpelled(TRIM, DateTokens(t1));
  }

  lemma {:induction false} TrimWellFormed()
    ensures WellFormed(TRIM_ESCAPE)
  {
    DateWellFormed();
    assert WellFormedOperand(Braced([], DATE_ESCAPE), false, Padded([], RIGHT));
    OneItemWellFormed(FN_KEY, TRIM_ITEM);
  }

  lemma {:induction false} TrimMeaning(src: string)
    ensures Meaning(src, TRIM_ESCAPE) == TrimCall("'2020-01-01'")
  {
    OneItemMeaning(src, FN_KEY, TRIM_ITEM);
    BracedMeaning(src, [], DATE_ESCAPE);
    DateMeaning(src);
  }

  lemma {:induction false} BracedMeaning(src: string, gap: seq<Token>, e: EscapeTree)
    ensures MeaningOfOperand(src, Braced(gap, e)) == Meaning(src, e)
  {
  }

  lemma {:induction false} TrimText()
    ensures CallText("LTRIM", DateText(")" + ("}" + ""))) == "{fn LTRIM({d '2020-01-01'})}"
  {
  }

  lemma {:induction false} TrimTextClean()
    ensures VERTICAL_TAB !in "{fn LTRIM({d '2020-01-01'})}"
  {
  }

  lemma {:induction false} TrimCallText()
    ensures TrimCall("'2020-01-01'") == "replaceRegexpOne('2020-01-01', '^\\\\s+', '')"
  {
  }

  /** A date nested in a call. */
  lemma {:induction false} NestedExample()
    ensures RewriteSequence("{fn LTRIM({d '2020-01-01'})}") == "replaceRegexpOne('2020-01-01', '^\\\\s+', '')"
  {
    TrimReads();
    TrimSpelled();
    TrimWellFormed();
    TrimMeaning("{fn LTRIM({d '2020-01-01'})}");
    TrimText();
    TrimTextClean();
    TrimCallText();
    TextTranslates(TRIM_ESCAPE, CallTokens(TRIM, DateTokens([RIGHT] + ([CLOSE] + []))),
                   "{fn LTRIM({d '2020-01-01'})}", TrimCall("'2020-01-01'"));
  }

  // ---- Nothing in the braces

  lemma {:induction false} BracesRead(src: string, ts: seq<Token>)
    requires src == "{" + ("}" + "") && ts == [OPEN] + ([CLOSE] + [])
    ensures Lexable(src, 0) && TokensFrom(src, 0) == ts
  {
    NoTokens();
    SignInFront(CLOSE, [], "");
    SignInFront(OPEN, [CLOSE] + [], "}" + "");
    ReadBack(src, ts);
  }

  lemma {:induction false} BracesDisappear(src: string, ts: seq<Token>)
    requires Lexable(src, 0) && TokensFrom(src, 0) == ts == [OPEN] + ([CLOSE] + [])
    ensures RewriteSequence(src) == ""
  {
    NoGap(CLOSE, []);
    EscapeProperties.UnsupportedStays(src, OPEN, Padded([], CLOSE), []);
  }

  /** An empty pair of braces disappears. */
  lemma {:induction false} EmptyBraces()
    ensures RewriteSequence("{}") == ""
  {
    var ts := [OPEN] + ([CLOSE] + []);
    assert "{" + ("}" + "") == "{}";
    BracesRead("{}", ts);
    BracesDisappear("{}", ts);
  }
}
