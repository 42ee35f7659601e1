/** `{d '...'}` and `{ts '...'}`: what becomes of the literal, whatever it holds. */
module LiteralEscapes {
  import opened Chars
  import opened Tokens
  import opened Lexer
  import opened LexerPrinting
  import opened TextSteps
  import opened TokenForms
  import opened EscapeSequences
  import opened EscapeTrees
  import opened EscapeTranslation
  import opened EscapeProperties
  import opened EscapeExample

  // ---- Token by token

  /** `{`, a keyword, a string and `}`, with any blanks between, and `more` behind the brace. */
  predicate LiteralSequence(ts: seq<Token>, open: Token, key: Padded, lit: Padded, close: Padded, more: seq<Token>) {
    && ts == [open] + SpellPadded(key, SpellPadded(lit, SpellPadded(close, more)))
    && open.kind == LCURLY && lit.tok.kind == STRING && lit.tok.literal != "" && close.tok.kind == RCURLY
    && Blanks(key.gap) && Blanks(lit.gap) && Blanks(close.gap)
  }

  lemma {:induction false} LiteralTree(
      ts: seq<Token>, open: Token, key: Padded, lit: Padded, close: Padded, more: seq<Token>) returns (e: EscapeTree)
    requires LiteralSequence(ts, open, key, lit, close, more) && (key.tok.kind == D || key.tok.kind == TS)
    ensures WellFormed(e) && ts == SpellEscape(e, more)
    ensures e == EscapeTree(open, MoreItems(key, ItemTree.Literal(lit), NoItems), close)
  {
    e := EscapeTree(open, MoreItems(key, ItemTree.Literal(lit), NoItems), close);
    var t := SpellPadded(close, more);
    assert SpellItems(NoItems, t) == t;
    assert SpellItem(ItemTree.Literal(lit), t) == SpellPadded(lit, t);
    assert SpellItems(e.items, t) == SpellPadded(key, SpellPadded(lit, t));
    assert WellFormedItems(NoItems, false, close);
  }

  lemma {:induction false} LiteralMeaning(src: string, e: EscapeTree, key: Padded, lit: Padded)
    requires e.items == MoreItems(key, ItemTree.Literal(lit), NoItems) && e.close.tok.kind == RCURLY
    ensures Meaning(src, e) == if key.tok.kind == D then lit.tok.literal else WithoutMilliseconds(lit.tok.literal)
  {
    assert MeaningOfItems(src, NoItems) == "";
    var text := MeaningOfItem(src, key.tok.kind, ItemTree.Literal(lit));
    assert text + "" == text;
  }

  /** A date is its literal. */
  lemma {:induction false} DateRewritten(
      src: string, open: Token, key: Padded, lit: Padded, close: Padded, more: seq<Token>)
    requires Lexable(src, 0) && LiteralSequence(TokensFrom(src, 0), open, key, lit, close, more)
    requires key.tok.kind == D
    ensures RewriteSequence(src) == lit.tok.literal
  {
    var e := LiteralTree(TokensFrom(src, 0), open, key, lit, close, more);
    TranslationCorrect(src, e, more);
    LiteralMeaning(src, e, key, lit);
  }

  /** A time stamp is its literal without the fraction, if it has one. */
  lemma {:induction false} TimestampRewritten(
      src: string, open: Token, key: Padded, lit: Padded, close: Padded, more: seq<Token>)
    requires Lexable(src, 0) && LiteralSequence(TokensFrom(src, 0), open, key, lit, close, more)
    requires key.tok.kind == TS
    ensures forall b: nat, d: nat :: FractionAt(lit.tok.literal, b, d) ==>
              RewriteSequence(src) == lit.tok.literal[..d] + lit.tok.literal[Unquoted(lit.tok.literal)..]
    ensures (forall b: nat, d: nat :: !FractionAt(lit.tok.literal, b, d)) ==> RewriteSequence(src) == lit.tok.literal
  {
    var e := LiteralTree(TokensFrom(src, 0), open, key, lit, close, more);
    TranslationCorrect(src, e, more);
    LiteralMeaning(src, e, key, lit);
    CutOrKept(lit.tok.literal);
  }

  lemma {:induction false} CutOrKept(s: string)
    ensures forall b: nat, d: nat :: FractionAt(s, b, d) ==> WithoutMilliseconds(s) == s[..d] + s[Unquoted(s)..]
    ensures (forall b: nat, d: nat :: !FractionAt(s, b, d)) ==> WithoutMilliseconds(s) == s
  {
    forall b: nat, d: nat | FractionAt(s, b, d)
      ensures WithoutMilliseconds(s) == s[..d] + s[Unquoted(s)..]
    {
      MillisecondsCut(s, b, d);
    }
    if forall b: nat, d: nat :: !FractionAt(s, b, d) {
      NoMillisecondsToCut(s);
    }
  }

  // ---- As texts

  /** `'...'` with the content escaped. */
  function QuotedText(content: string): string { "'" + Escaped(content) + "'" }

  lemma {:induction false} QuotedStands(content: string, next: string)
    ensures StandsAlone(Token(STRING, QuotedText(content)), next)
  {
    EscapedString(content, next);
  }

  function SequenceTokens(word: Token, content: string): seq<Token> {
    [OPEN] + ([word] + ([BLANK] + ([Token(STRING, QuotedText(content))] + ([CLOSE] + []))))
  }

  function SequenceText(word: string, content: string): string {
    "{" + (word + (" " + (QuotedText(content) + ("}" + ""))))
  }

  lemma {:induction false} SequenceRead(word: Token, content: string, src: string, ts: seq<Token>)
    requires Word(word) && src == SequenceText(word.literal, content) && ts == SequenceTokens(word, content)
    requires VERTICAL_TAB !in src
    ensures Lexable(src, 0) && TokensFrom(src, 0) == ts
  {
    NoTokens();
    SignInFront(CLOSE, [], "");
    var lit := Token(STRING, QuotedText(content));
    QuotedStands(content, "}");
    InFront(lit, [CLOSE] + [], "}" + "", "}");
    WordInBraces(word, [lit] + ([CLOSE] + []), QuotedText(content) + ("}" + ""));
    ReadBack(src, ts);
  }

  lemma {:induction false} SequenceSpelled(word: Token, content: string)
    ensures LiteralSequence(SequenceTokens(word, content), OPEN, Padded([], word),
                            Padded([BLANK], Token(STRING, QuotedText(content))), Padded([], CLOSE), [])
  {
    var lit := Token(STRING, QuotedText(content));
    NoGap(CLOSE, []);
    OneBlank(lit, [CLOSE] + []);
    NoGap(word, [BLANK] + ([lit] + ([CLOSE] + [])));
  }

  /** The text of a keyword, a blank and a string in braces spells such a sequence. */
  lemma {:induction false} TextOfSequence(word: Token, content: string, src: string)
    requires Word(word) && src == SequenceText(word.literal, content) && VERTICAL_TAB !in src
    ensures Lexable(src, 0)
    ensures LiteralSequence(TokensFrom(src, 0), OPEN, Padded([], word),
                            Padded([BLANK], Token(STRING, QuotedText(content))), Padded([], CLOSE), [])
  {
    SequenceRead(word, content, src, SequenceTokens(word, content));
    SequenceSpelled(word, content);
  }

  /** `{d '...'}` becomes the literal, whatever is escaped in it. */
  lemma {:induction false} DateTextRewritten(word: Token, content: string, src: string)
    requires Word(word) && word.kind == D && src == SequenceText(word.literal, content) && VERTICAL_TAB !in src
    ensures RewriteSequence(src) == QuotedText(content)
  {
    TextOfSequence(word, content, src);
    DateRewritten(src, OPEN, Padded([], word), Padded([BLANK], Token(STRING, QuotedText(content))),
                  Padded([], CLOSE), []);
  }

  /** `{ts '...'}` becomes the literal without its fraction. */
  lemma {:induction false} TimestampTextRewritten(word: Token, content: string, src: string, b: nat, d: nat)
    requires Word(word) && word.kind == TS && src == SequenceText(word.literal, content) && VERTICAL_TAB !in src
    requires FractionAt(QuotedText(content), b, d)
    ensures RewriteSequence(src) == QuotedText(content)[..d] + "'"
  {
    TextOfSequence(word, content, src);
    TimestampRewritten(src, OPEN, Padded([], word), Padded([BLANK], Token(STRING, QuotedText(content))),
                       Padded([], CLOSE), []);
  }

  // ---- An example

  const TIMESTAMP_WORD := Token(TS, "ts")

  lemma {:induction false} TimestampWord()
    ensures Word(TIMESTAMP_WORD)
  {
    assert ToUpper("ts") == "TS";
  }

  lemma {:induction false} PlainContent(content: string)
    requires forall i :: 0 <= i < |content| ==> content[i] != '\\' && content[i] != '\''
    ensures Escaped(content) == content
  {
    if content != "" {
      PlainContent(content[1..]);
    }
  }

  const INSTANT := "2020-01-01 10:00:00.123"

  lemma {:induction false} InstantPlain(content: string, s: string)
    requires content == INSTANT && s == "'2020-01-01 10:00:00.123'"
    ensures s == "'" + content + "'"
    ensures forall i :: 0 <= i < |content| ==> content[i] != '\\' && content[i] != '\''
  {
  }

  lemma {:induction false} PlainQuoted(content: string, s: string)
    requires forall i :: 0 <= i < |content| ==> content[i] != '\\' && content[i] != '\''
    requires s == "'" + content + "'"
    ensures QuotedText(content) == s
  {
    PlainContent(content);
  }

  lemma {:induction false} InstantFraction(s: string)
    requires s == "'2020-01-01 10:00:00.123'"
    ensures FractionAt(s, 17, 20) && s[..20] + "'" == "'2020-01-01 10:00:00'"
  {
  }

  lemma {:induction false} InstantText(s: string, src: string)
    requires src == "{ts " + s + "}"
    ensures src == "{" + ("ts" + (" " + (s + ("}" + ""))))
  {
    assert "{ts " == "{" + "ts" + " ";
    assert s + ("}" + "") == s + "}";
  }

  lemma {:induction false} InstantClean(s: string, src: string)
    requires s == "'2020-01-01 10:00:00.123'" && src == "{ts " + s + "}"
    ensures VERTICAL_TAB !in src
  {
  }

  lemma {:induction false} TimestampExample(s: string, src: string)
    requires s == "'2020-01-01 10:00:00.123'" && src == "{ts " + s + "}"
    ensures RewriteSequence(src) == "'2020-01-01 10:00:00'"
  {
    InstantPlain(INSTANT, s);
    PlainQuoted(INSTANT, s);
    InstantFraction(s);
    InstantText(s, src);
    InstantClean(s, src);
    TimestampWord();
    TimestampTextRewritten(TIMESTAMP_WORD, INSTANT, src, 17, 20);
  }
}
