/** Calls of LTRIM and LOCATE with operands that are not read as they should be, character by character. */
module OperandExamples {
  import opened Chars
  import opened FunctionDeclare
  import opened Tokens
  import opened Lexer
  import opened LexerPrinting
  import opened TextSteps
  import opened EscapeSequences
  import opened EscapeTrees
  import opened EscapeTranslation
  import opened OpenCalls
  import opened UsedUpText
  import opened OperandFailures
  import opened EscapeExample
  import opened FailureExamples

  predicate IsLetter(t: Token) {
    t == Token(IDENT, "a") || t == Token(IDENT, "b") || t == Token(IDENT, "c") || t == Token(IDENT, "x")
  }

  lemma {:induction false} LetterWord(t: Token)
    requires IsLetter(t)
    ensures Word(t)
  {
    assert ToUpper(t.literal) == [UpperChar(t.literal[0])];
  }

  lemma {:induction false} LetterOperand(t: Token, gap: seq<Token>, emit: bool, next: Padded)
    requires IsLetter(t) && Blanks(gap) && Blanks(next.gap) && next.tok.kind != SPACE && next.tok.kind != LPARENT
    ensures WellFormedOperand(Simple(Padded(gap, t)), emit, next)
  {
  }

  // ---- A blank in front of a parenthesis

  const LOWER_WORD := Token(Scalar(LCASE), "LCASE")
  const X := Token(IDENT, "x")

  lemma {:induction false} LowerWord()
    ensures Word(LOWER_WORD)
  {
    LowerLookup();
  }

  lemma {:induction false} LowerLookup()
    ensures LookupIdent(ToUpper("LCASE")) == Scalar(LCASE)
  {
    assert ToUpper("LCASE") == "LCASE";
  }

  /** `(x))` behind the blank */
  const X_BODY := BodyGroup(LEFT, BodyToken(X, Close(RIGHT)), Close(RIGHT))

  lemma {:induction false} BodySpelled(tail: seq<Token>)
    ensures SpellBody(X_BODY, tail) == [LEFT] + ([X] + ([RIGHT] + ([RIGHT] + tail)))
  {
  }

  function LowerText(): string { "LCASE" + (" " + ("(" + ("x" + (")" + (")" + ("}" + "")))))) }

  lemma {:induction false} LowerReads(tail: seq<Token>)
    requires tail == [CLOSE] + []
    ensures Prints([LOWER_WORD] + ([BLANK] + SpellBody(X_BODY, tail)), LowerText())
  {
    NoTokens();
    EndTokens([], "");
    SignInFront(RIGHT, [RIGHT] + tail, ")" + ("}" + ""));
    LetterWord(X);
    var t, x := [RIGHT] + ([RIGHT] + tail), ")" + (")" + ("}" + ""));
    WordInFront(X, t, x);
    SignInFront(LEFT, [X] + t, "x" + x);
    BodySpelled(tail);
    SignInFront(BLANK, [LEFT] + ([X] + t), "(" + ("x" + x));
    LowerWord();
    WordInFront(LOWER_WORD, [BLANK] + ([LEFT] + ([X] + t)), " " + ("(" + ("x" + x)));
  }

  lemma {:induction false} TrimCallWellFormed()
    ensures WellFormedCall(CallOf(TRIM, Param))
  {
    IsPadded(TRIM);
    IsPadded(LEFT);
  }

  lemma {:induction false} LowerRead(src: string)
    requires VERTICAL_TAB !in src && src == CallText("LTRIM", LowerText())
    ensures StartsIn(src, Whole, CallOf(TRIM, Param), SpellPadded(Padded([], LOWER_WORD),
                       [BLANK] + SpellBody(X_BODY, SpellPadded(Padded([], CLOSE), []))))
  {
    NoGap(CLOSE, []);
    LowerReads([CLOSE] + []);
    NoGap(LOWER_WORD, [BLANK] + SpellBody(X_BODY, [CLOSE] + []));
    TrimWord();
    TrimCallWellFormed();
    CallRead(src, TRIM, Param, [LOWER_WORD] + ([BLANK] + SpellBody(X_BODY, [CLOSE] + [])), LowerText());
  }

  lemma {:induction false} LowerStays(src: string)
    requires VERTICAL_TAB !in src && src == CallText("LTRIM", LowerText())
    ensures RewriteSequence(src) == src
  {
    LowerRead(src);
    assert WellFormedBody(X_BODY);
    WordStays(src, Whole, CallOf(TRIM, Param), Padded([], LOWER_WORD), BLANK, X_BODY, Padded([], CLOSE));
  }

  lemma {:induction false} LowerWritten()
    ensures CallText("LTRIM", LowerText()) == "{fn LTRIM(LCASE (x))}" && VERTICAL_TAB !in "{fn LTRIM(LCASE (x))}"
  {
    assert LowerText() == "LCASE (x))}";
  }

  /** With a blank behind the name of the inner function nothing is translated. */
  lemma {:induction false} BlankExample(src: string)
    requires src == "{fn LTRIM(LCASE (x))}"
    ensures Lexable(src, 0) && RewriteSequence(src) == src
  {
    LowerWritten();
    LowerStays(src);
  }

  // ---- A column called fn

  lemma {:induction false} FnRead(src: string)
    requires VERTICAL_TAB !in src && src == CallText("LTRIM", "fn" + (")" + ("}" + "")))
    ensures Starts(src, CallOf(TRIM, Param), SpellPadded(Padded([], FN_WORD),
                     SpellPadded(Padded([], RIGHT), SpellPadded(Padded([], CLOSE), []))))
  {
    NoTokens();
    EndTokens([], "");
    FnWord();
    var t := [RIGHT] + ([CLOSE] + []);
    WordInFront(FN_WORD, t, ")" + ("}" + ""));
    NoGap(CLOSE, []);
    NoGap(RIGHT, [CLOSE] + []);
    NoGap(FN_WORD, t);
    TrimWord();
    TrimCallWellFormed();
    CallRead(src, TRIM, Param, [FN_WORD] + t, "fn" + (")" + ("}" + "")));
  }

  lemma {:induction false} FnWritten()
    ensures CallText("LTRIM", "fn" + (")" + ("}" + ""))) == "{fn LTRIM(fn)}" && VERTICAL_TAB !in "{fn LTRIM(fn)}"
  {
  }

  /** A column called `fn` doubles the sequence. */
  lemma {:induction false} FnExample(src: string)
    requires src == "{fn LTRIM(fn)}"
    ensures Lexable(src, 0) && RewriteSequence(src) == src + src
  {
    FnWritten();
    FnRead(src);
    FnDoubles(src, CallOf(TRIM, Param), Padded([], FN_WORD), Padded([], RIGHT), Padded([], CLOSE), []);
  }

  // ---- LOCATE with two operands

  const FIND := Token(LOCATE, "LOCATE")
  const A := Token(IDENT, "a")
  const B := Token(IDENT, "b")
  const C := Token(IDENT, "c")

  lemma {:induction false} FindWord()
    ensures Word(FIND)
  {
    FindLookup();
  }

  lemma {:induction false} FindLookup()
    ensures LookupIdent(ToUpper("LOCATE")) == LOCATE
  {
    assert ToUpper("LOCATE") == "LOCATE";
  }

  /** `a, b)` */
  const TWO_PLACE :=
    Offset(Simple(Padded([], A)), Padded([], SEPARATOR), Simple(Padded([BLANK], B)), Padded([], RIGHT))

  lemma {:induction false} TwoSpelled(tail: seq<Token>)
    ensures SpellPlace(TWO_PLACE, tail) == [A] + ([SEPARATOR] + ([BLANK] + ([B] + ([RIGHT] + tail))))
  {
    NoGap(RIGHT, tail);
    OneBlank(B, [RIGHT] + tail);
    var t := [BLANK] + ([B] + ([RIGHT] + tail));
    NoGap(SEPARATOR, t);
    NoGap(A, [SEPARATOR] + t);
    assert SpellOperand(Simple(Padded([BLANK], B)), [RIGHT] + tail) == t;
  }

  function TwoText(): string { "a" + ("," + (" " + ("b" + (")" + ("}" + ""))))) }

  lemma {:induction false} TwoReads(tail: seq<Token>)
    requires tail == [CLOSE] + []
    ensures Prints(SpellPlace(TWO_PLACE, tail), TwoText())
  {
    NoTokens();
    EndTokens([], "");
    LetterWord(A);
    LetterWord(B);
    var t, x := [RIGHT] + tail, ")" + ("}" + "");
    BlankAndWord(B, t, x);
    SignInFront(SEPARATOR, [BLANK] + ([B] + t), " " + ("b" + x));
    WordInFront(A, [SEPARATOR] + ([BLANK] + ([B] + t)), "," + (" " + ("b" + x)));
    TwoSpelled(tail);
  }

  lemma {:induction false} TwoCallWellFormed()
    ensures WellFormedCall(CallOf(FIND, TWO_PLACE))
  {
    IsPadded(FIND);
    IsPadded(LEFT);
    IsPadded(SEPARATOR);
    IsPadded(RIGHT);
    IsPadded(B);
    LetterOperand(A, [], false, Padded([], SEPARATOR));
    LetterOperand(B, [BLANK], false, Padded([], RIGHT));
  }

  lemma {:induction false} TwoRead(src: string)
    requires VERTICAL_TAB !in src && src == CallText("LOCATE", TwoText())
    ensures Starts(src, CallOf(FIND, TWO_PLACE), SpellPadded(Padded([], CLOSE), []))
  {
    FindWord();
    TwoReads([CLOSE] + []);
    TwoCallWellFormed();
    NoGap(CLOSE, []);
    CallRead(src, FIND, TWO_PLACE, [CLOSE] + [], TwoText());
  }

  lemma {:induction false} TwoWritten()
    ensures CallText("LOCATE", TwoText()) == "{fn LOCATE(a, b)}" && VERTICAL_TAB !in "{fn LOCATE(a, b)}"
  {
    assert TwoText() == "a, b)}";
  }

  /** Looking for `a` in `b` is not translated. */
  lemma {:induction false} LocateExample(src: string)
    requires src == "{fn LOCATE(a, b)}"
    ensures Lexable(src, 0) && RewriteSequence(src) == src
  {
    TwoWritten();
    TwoRead(src);
    LocateWithoutOffsetStays(src, CallOf(FIND, TWO_PLACE), Padded([], CLOSE));
  }

  // ---- LOCATE of a sum

  const PLUS := Token(OTHER, "+")

  lemma {:induction false} PlusStands()
    ensures StandsAlone(PLUS, " ")
  {
    assert "+" + " " == "+ ";
    assert OtherEnd("+ ", 1) == 1;
  }

  const SUM_ITEM :=
    LocateCall(NameOf(FIND), Padded([], LEFT), Simple(Padded([], A)), Padded([BLANK], PLUS),
               Simple(Padded([BLANK], B)), Padded([], SEPARATOR), Simple(Padded([BLANK], C)), Padded([], RIGHT))

  /** `a + b, c)}` */
  function SumTokens(): seq<Token> {
    [A] + ([BLANK] + ([PLUS] + ([BLANK] + ([B] + ([SEPARATOR] + ([BLANK] + ([C] + ([RIGHT] + ([CLOSE] + [])))))))))
  }

  function SumText(): string {
    "a" + (" " + ("+" + (" " + ("b" + ("," + (" " + ("c" + (")" + ("}" + "")))))))))
  }

  lemma {:induction false} SumReads()
    ensures Prints(SumTokens(), SumText())
  {
    NoTokens();
    EndTokens([], "");
    LetterWord(A);
    LetterWord(B);
    LetterWord(C);
    PlusStands();
    var t1, x1 := [RIGHT] + ([CLOSE] + []), ")" + ("}" + "");
    BlankAndWord(C, t1, x1);
    var t2, x2 := [BLANK] + ([C] + t1), " " + ("c" + x1);
    SignInFront(SEPARATOR, t2, x2);
    BlankAndWord(B, [SEPARATOR] + t2, "," + x2);
    var t3, x3 := [BLANK] + ([B] + ([SEPARATOR] + t2)), " " + ("b" + ("," + x2));
    InFront(PLUS, t3, x3, " ");
    SignInFront(BLANK, [PLUS] + t3, "+" + x3);
    WordInFront(A, [BLANK] + ([PLUS] + t3), " " + ("+" + x3));
  }

  lemma {:induction false} SumSpelled()
    ensures SpellEscape(OneItem(FN_KEY, SUM_ITEM), []) == CallTokens(FIND, SumTokens())
  {
    SpellOneItem(FN_KEY, SUM_ITEM, []);
    var t1 := [RIGHT] + ([CLOSE] + []);
    NoGap(RIGHT, [CLOSE] + []);
    OneBlank(C, t1);
    NoGap(SEPARATOR, [BLANK] + ([C] + t1));
    var t2 := [SEPARATOR] + ([BLANK] + ([C] + t1));
    OneBlank(B, t2);
    var t3 := [BLANK] + ([B] + t2);
    OneBlank(PLUS, t3);
    NoGap(A, [BLANK] + ([PLUS] + t3));
    OperandsSpelled(t1, t2, [BLANK] + ([PLUS] + t3));
    CallSpelled(FIND, SumTokens());
  }

  lemma {:induction false} OperandsSpelled(t1: seq<Token>, t2: seq<Token>, t3: seq<Token>)
    ensures SpellOperand(Simple(Padded([BLANK], C)), t1) == SpellPadded(Padded([BLANK], C), t1)
    ensures SpellOperand(Simple(Padded([BLANK], B)), t2) == SpellPadded(Padded([BLANK], B), t2)
    ensures SpellOperand(Simple(Padded([], A)), t3) == SpellPadded(Padded([], A), t3)
  {
  }

  lemma {:induction false} SumWellFormed()
    ensures WellFormed(OneItem(FN_KEY, SUM_ITEM))
  {
    IsPadded(FIND);
    IsPadded(LEFT);
    IsPadded(PLUS);
    IsPadded(SEPARATOR);
    IsPadded(RIGHT);
    IsPadded(B);
    LetterOperand(A, [], false, Padded([BLANK], PLUS));
    LetterOperand(B, [BLANK], false, Padded([], SEPARATOR));
    LetterOperand(C, [BLANK], false, Padded([], RIGHT));
    OneItemWellFormed(FN_KEY, SUM_ITEM);
  }

  lemma {:induction false} SumMeaning(src: string)
    ensures Meaning(src, OneItem(FN_KEY, SUM_ITEM)) == "position(b,a)"
  {
    OneItemMeaning(src, FN_KEY, SUM_ITEM);
    assert MeaningOfItem(src, FN, SUM_ITEM) == PositionCall("b", "a");
  }

  lemma {:induction false} SumWritten()
    ensures CallText("LOCATE", SumText()) == "{fn LOCATE(" + "a + b, c)}"
    ensures VERTICAL_TAB !in "{fn LOCATE(" && VERTICAL_TAB !in "a + b, c)}"
  {
    assert SumText() == "a + b, c)}";
  }

  /** Looking for `a + b` in `c` is translated to looking for `a` in `b`. */
  lemma {:induction false} SumExample(src: string)
    requires src == "{fn LOCATE(" + "a + b, c)}"
    ensures Lexable(src, 0) && RewriteSequence(src) == "position(b,a)"
  {
    SumWritten();
    SumReads();
    FindWord();
    CallInFront(FIND, SumTokens(), SumText());
    SumSpelled();
    SumWellFormed();
    SumMeaning(src);
    TextTranslates(OneItem(FN_KEY, SUM_ITEM), CallTokens(FIND, SumTokens()), src, "position(b,a)");
  }
}
