/** Ordinary calls that are not translated, and one that is translated to something else, character by
    character. */
module FailureExamples {
  import opened Chars
  import opened FunctionDeclare
  import opened Tokens
  import opened Lexer
  import opened LexerPrinting
  import opened TextSteps
  import opened TokenNesting
  import opened EscapeSequences
  import opened EscapeTrees
  import opened EscapeTranslation
  import opened OpenCalls
  import opened UsedUpText
  import opened OperandFailures
  import opened EscapeExample
  import EscapeProperties
  import NestedFailures

  /** A call of a function whose name follows FN behind one blank. */
  function CallOf(name: Token, place: Place): OpenCall {
    OpenCall(OPEN, FN_KEY, NameOf(name), Padded([], LEFT), place)
  }

  lemma {:induction false} CallOfSpelled(name: Token, place: Place, t: seq<Token>)
    ensures SpellCall(CallOf(name, place), t) == CallTokens(name, SpellPlace(place, t))
  {
    CallSpelled(name, SpellPlace(place, t));
  }

  /** The text of a call is read as its tokens. */
  lemma {:induction false} CallRead(src: string, name: Token, place: Place, t: seq<Token>, text: string)
    requires Word(name) && Prints(SpellPlace(place, t), text)
    requires VERTICAL_TAB !in src && src == CallText(name.literal, text) && WellFormedCall(CallOf(name, place))
    ensures Starts(src, CallOf(name, place), t)
  {
    CallInFront(name, SpellPlace(place, t), text);
    CallOfSpelled(name, place, t);
    ReadBack(src, CallTokens(name, SpellPlace(place, t)));
  }

  lemma {:induction false} IsPadded(t: Token)
    requires t.kind != SPACE
    ensures Is(Padded([], t), t.kind, false) && Is(Padded([BLANK], t), t.kind, false)
  {
  }

  // ---- TIMESTAMPADD

  const ADD := Token(Scalar(TIMESTAMPADD), "TIMESTAMPADD")
  const DAY_UNIT := Token(SQL_TSI_DAY, "SQL_TSI_DAY")
  const ONE := Token(NUMBER, "1")

  /** `SQL_TSI_DAY, 1,` */
  const DATE_PLACE :=
    Date(Padded([], DAY_UNIT), Padded([], SEPARATOR), Simple(Padded([BLANK], ONE)), Padded([], SEPARATOR))

  function DateArguments(rest: seq<Token>): seq<Token> {
    [DAY_UNIT] + ([SEPARATOR] + ([BLANK] + ([ONE] + ([SEPARATOR] + rest))))
  }

  function DateArgumentsText(text: string): string {
    "SQL_TSI_DAY" + ("," + (" " + ("1" + ("," + text))))
  }

  lemma {:induction false} AddWord()
    ensures Word(ADD)
  {
    AddLookup();
  }

  lemma {:induction false} AddLookup()
    ensures LookupIdent(ToUpper("TIMESTAMPADD")) == Scalar(TIMESTAMPADD)
  {
    assert ToUpper("TIMESTAMPADD") == "TIMESTAMPADD";
  }

  lemma {:induction false} UnitWord()
    ensures Word(DAY_UNIT)
  {
    UnitLookup();
  }

  lemma {:induction false} UnitLookup()
    ensures LookupIdent(ToUpper("SQL_TSI_DAY")) == SQL_TSI_DAY
  {
    assert ToUpper("SQL_TSI_DAY") == "SQL_TSI_DAY";
  }

  lemma {:induction false} OneInFront(rest: seq<Token>, text: string)
    requires Prints(rest, text) && FirstOf(text) == ","
    ensures Prints([ONE] + rest, "1" + text)
  {
    assert "1" + "," == "1,";
    assert ScanNumber("1,", 1, false, false) == Lexeme(NUMBER, 1);
    InFront(ONE, rest, text, ",");
  }

  lemma {:induction false} DatePlaceSpelled(rest: seq<Token>)
    ensures SpellPlace(DATE_PLACE, rest) == DateArguments(rest)
  {
    NoGap(SEPARATOR, rest);
    OneBlank(ONE, [SEPARATOR] + rest);
    var t := [BLANK] + ([ONE] + ([SEPARATOR] + rest));
    NoGap(SEPARATOR, t);
    NoGap(DAY_UNIT, [SEPARATOR] + t);
    assert SpellOperand(Simple(Padded([BLANK], ONE)), [SEPARATOR] + rest) == t;
  }

  lemma {:induction false} DatePlaceReads(rest: seq<Token>, text: string)
    requires Prints(rest, text)
    ensures Prints(SpellPlace(DATE_PLACE, rest), DateArgumentsText(text))
  {
    DatePlaceSpelled(rest);
    SignInFront(SEPARATOR, rest, text);
    OneInFront([SEPARATOR] + rest, "," + text);
    UnitWord();
    WordAndComma(DAY_UNIT, [ONE] + ([SEPARATOR] + rest), "1" + ("," + text));
  }

  /** A word, a comma and a blank in front. */
  lemma {:induction false} WordAndComma(t: Token, rest: seq<Token>, text: string)
    requires Word(t) && Prints(rest, text)
    ensures Prints([t] + ([SEPARATOR] + ([BLANK] + rest)), t.literal + ("," + (" " + text)))
  {
    SignInFront(BLANK, rest, text);
    SignInFront(SEPARATOR, [BLANK] + rest, " " + text);
    WordInFront(t, [SEPARATOR] + ([BLANK] + rest), "," + (" " + text));
  }

  lemma {:induction false} DateCallWellFormed()
    ensures WellFormedCall(CallOf(ADD, DATE_PLACE))
  {
    DateHead(NameOf(ADD), Padded([], LEFT), Padded([], DAY_UNIT), Padded([], SEPARATOR), Padded([BLANK], ONE));
    IsPadded(ADD);
    IsPadded(LEFT);
    IsPadded(DAY_UNIT);
    IsPadded(SEPARATOR);
  }

  /** `TIMESTAMPADD(unit, number,` */
  lemma {:induction false} DateHead(name: Padded, lparen: Padded, unit: Padded, comma: Padded, one: Padded)
    requires Is(name, Scalar(TIMESTAMPADD), false) && Is(lparen, LPARENT, false)
    requires Reads(unit, false) && IsUnit(unit.tok.kind) && Is(comma, COMMA, false)
    requires Is(one, NUMBER, false) && one.tok.literal != ""
    ensures WellFormedCall(OpenCall(OPEN, FN_KEY, name, lparen, Date(unit, comma, Simple(one), comma)))
  {
    assert WellFormedOperand(Simple(one), false, comma);
  }

  /** A call of TIMESTAMPADD up to its date. */
  lemma {:induction false} DateCallRead(src: string, rest: seq<Token>, text: string)
    requires Prints(rest, text)
    requires VERTICAL_TAB !in src && src == CallText("TIMESTAMPADD", DateArgumentsText(text))
    ensures Starts(src, CallOf(ADD, DATE_PLACE), rest)
  {
    AddWord();
    DatePlaceReads(rest, text);
    DateCallWellFormed();
    CallRead(src, ADD, DATE_PLACE, rest, DateArgumentsText(text));
  }

  lemma {:induction false} DateCallWritten(text: string)
    ensures CallText("TIMESTAMPADD", DateArgumentsText(text)) == "{fn TIMESTAMPADD(SQL_TSI_DAY, 1," + text
  {
    DateArgumentsWritten(text);
    AddHead(DateArgumentsText(text));
    Concat3("{fn TIMESTAMPADD(", "SQL_TSI_DAY, 1,", text);
    DateFront();
  }

  lemma {:induction false} DateArgumentsWritten(text: string)
    ensures DateArgumentsText(text) == "SQL_TSI_DAY, 1," + text
  {
  }

  lemma {:induction false} AddHead(text: string)
    ensures CallText("TIMESTAMPADD", text) == "{fn TIMESTAMPADD(" + text
  {
  }

  lemma {:induction false} DateFront()
    ensures "{fn TIMESTAMPADD(" + "SQL_TSI_DAY, 1," == "{fn TIMESTAMPADD(SQL_TSI_DAY, 1,"
  {
  }

  // ---- One day from now

  const NOW := Token(Tokens.CURRENT_TIMESTAMP, "CURRENT_TIMESTAMP")

  lemma {:induction false} NowWord()
    ensures Word(NOW)
  {
    NowLookup();
  }

  lemma {:induction false} NowLookup()
    ensures LookupIdent(ToUpper("CURRENT_TIMESTAMP")) == Tokens.CURRENT_TIMESTAMP
  {
    assert ToUpper("CURRENT_TIMESTAMP") == "CURRENT_TIMESTAMP";
  }

  /** ` CURRENT_TIMESTAMP)}` */
  function NowTokens(rest: seq<Token>): seq<Token> {
    [BLANK] + ([NOW] + ([RIGHT] + ([CLOSE] + rest)))
  }

  function NowText(text: string): string { " " + ("CURRENT_TIMESTAMP" + (")" + ("}" + text))) }

  lemma {:induction false} NowReads(rest: seq<Token>, text: string)
    requires Prints(rest, text)
    ensures Prints(NowTokens(rest), NowText(text))
  {
    EndTokens(rest, text);
    NowWord();
    BlankAndWord(NOW, [RIGHT] + ([CLOSE] + rest), ")" + ("}" + text));
  }

  lemma {:induction false} NowSpelled(rest: seq<Token>)
    ensures NowTokens(rest)
         == SpellPadded(Padded([BLANK], NOW), SpellPadded(Padded([], RIGHT), SpellPadded(Padded([], CLOSE), rest)))
  {
    NoGap(CLOSE, rest);
    NoGap(RIGHT, [CLOSE] + rest);
    OneBlank(NOW, [RIGHT] + ([CLOSE] + rest));
  }

  lemma {:induction false} NowStays(src: string)
    requires VERTICAL_TAB !in src && src == CallText("TIMESTAMPADD", DateArgumentsText(NowText("")))
    ensures RewriteSequence(src) == src
  {
    NoTokens();
    NowReads([], "");
    DateCallRead(src, NowTokens([]), NowText(""));
    NowSpelled([]);
    TimestampOperandStays(
      src, CallOf(ADD, DATE_PLACE), Padded([BLANK], NOW), Padded([], RIGHT), Padded([], CLOSE), []);
  }

  lemma {:induction false} NowClean()
    ensures VERTICAL_TAB !in "{fn TIMESTAMPADD(SQL_TSI_DAY, 1,"
    ensures NowText("") == " CURRENT_TIMESTAMP)}" && VERTICAL_TAB !in " CURRENT_TIMESTAMP)}"
  {
  }

  /** One day from now is not translated. */
  lemma {:induction false} NowExample(src: string)
    requires src == "{fn TIMESTAMPADD(SQL_TSI_DAY, 1," + " CURRENT_TIMESTAMP)}"
    ensures Lexable(src, 0) && RewriteSequence(src) == src
  {
    DateCallWritten(NowText(""));
    NowClean();
    NowStays(src);
  }

  // ---- One day from today

  const TODAY := Token(Scalar(CURRENT_DATE), "CURRENT_DATE")

  lemma {:induction false} TodayWord()
    ensures Word(TODAY)
  {
    TodayLookup();
  }

  lemma {:induction false} TodayLookup()
    ensures LookupIdent(ToUpper("CURRENT_DATE")) == Scalar(CURRENT_DATE)
  {
    assert ToUpper("CURRENT_DATE") == "CURRENT_DATE";
  }

  function TodayText(): string { " " + ("CURRENT_DATE" + (")" + ("}" + ""))) }

  lemma {:induction false} TodayRead(src: string, rest: seq<Token>)
    requires VERTICAL_TAB !in src && src == CallText("TIMESTAMPADD", DateArgumentsText(TodayText()))
    requires rest == [CLOSE] + []
    ensures Starts(src, CallOf(ADD, DATE_PLACE), SpellPadded(Padded([BLANK], TODAY), [RIGHT] + rest))
  {
    NoTokens();
    EndTokens([], "");
    TodayWord();
    BlankAndWord(TODAY, [RIGHT] + rest, ")" + ("}" + ""));
    DateCallRead(src, [BLANK] + ([TODAY] + ([RIGHT] + rest)), TodayText());
    OneBlank(TODAY, [RIGHT] + rest);
  }

  /** A function's name as the last operand, the closing parenthesis and the brace. */
  lemma {:induction false} LastNameStays(src: string, call: OpenCall, word: Token, right: Token, close: Token)
    requires Starts(src, call, SpellPadded(Padded([BLANK], word), [right] + ([close] + [])))
    requires word.kind.Scalar? && close.kind == RCURLY
    ensures RewriteSequence(src) == src
  {
    assert [close] + [] == [close];
    LastWordOfWhole(src, call, Padded([BLANK], word), right, close);
  }

  lemma {:induction false} LastWordOfWhole(src: string, call: OpenCall, word: Padded, right: Token, close: Token)
    requires Starts(src, call, SpellPadded(word, [right] + [close]))
    requires Blanks(word.gap) && word.tok.kind.Scalar? && close.kind == RCURLY
    ensures RewriteSequence(src) == src
  {
    OnlyBrace(close);
    WholeIn(src, call, SpellPadded(word, [right] + [close]));
    LastWordStays(src, Whole, call, word, right, [close]);
  }

  lemma {:induction false} OnlyBrace(close: Token)
    requires close.kind == RCURLY
    ensures Closing([close], 1) == 0 && EscapeProperties.Plain([close], 1)
  {
  }

  lemma {:induction false} TodayStays(src: string)
    requires VERTICAL_TAB !in src && src == CallText("TIMESTAMPADD", DateArgumentsText(TodayText()))
    ensures RewriteSequence(src) == src
  {
    TodayRead(src, [CLOSE] + []);
    LastNameStays(src, CallOf(ADD, DATE_PLACE), TODAY, RIGHT, CLOSE);
  }

  lemma {:induction false} TodayClean()
    ensures TodayText() == " CURRENT_DATE)}" && VERTICAL_TAB !in " CURRENT_DATE)}"
  {
  }

  /** Neither is one day from today. */
  lemma {:induction false} TodayExample(src: string)
    requires src == "{fn TIMESTAMPADD(SQL_TSI_DAY, 1," + " CURRENT_DATE)}"
    ensures Lexable(src, 0) && RewriteSequence(src) == src
  {
    DateCallWritten(TodayText());
    NowClean();
    TodayClean();
    TodayStays(src);
  }

  // ---- One day from now inside another call

  const JOIN_WORD := Token(Scalar(CONCAT), "CONCAT")
  const LETTER := Token(STRING, "'x'")

  lemma {:induction false} JoinWord()
    ensures Word(JOIN_WORD)
  {
    JoinLookup();
  }

  lemma {:induction false} JoinLookup()
    ensures LookupIdent(ToUpper("CONCAT")) == Scalar(CONCAT)
  {
    assert ToUpper("CONCAT") == "CONCAT";
  }

  lemma {:induction false} LetterStands()
    ensures StandsAlone(LETTER, ")")
  {
    assert "'x'" + ")" == "'x')";
    StringEnds("'x')", 1, 2);
  }

  /** `, 'x')}` */
  function LostTail(): seq<Token> {
    [SEPARATOR] + ([BLANK] + ([LETTER] + ([RIGHT] + ([CLOSE] + []))))
  }

  function LostTailText(): string { "," + (" " + ("'x'" + (")" + ("}" + "")))) }

  lemma {:induction false} LostTailReads()
    ensures Prints(LostTail(), LostTailText())
  {
    NoTokens();
    EndTokens([], "");
    LetterStands();
    var t, x := [RIGHT] + ([CLOSE] + []), ")" + ("}" + "");
    InFront(LETTER, t, x, ")");
    SignInFront(BLANK, [LETTER] + t, "'x'" + x);
    SignInFront(SEPARATOR, [BLANK] + ([LETTER] + t), " " + ("'x'" + x));
  }

  function InnerTokens(): seq<Token> { CallTokens(ADD, SpellPlace(DATE_PLACE, NowTokens(LostTail()))) }

  function InnerText(): string { CallText("TIMESTAMPADD", DateArgumentsText(NowText(LostTailText()))) }

  lemma {:induction false} JoinRead(src: string)
    requires VERTICAL_TAB !in src && src == CallText("CONCAT", InnerText())
    ensures TokensFrom(src, 0) == CallTokens(JOIN_WORD, InnerTokens())
  {
    LostTailReads();
    NowReads(LostTail(), LostTailText());
    DatePlaceReads(NowTokens(LostTail()), NowText(LostTailText()));
    AddWord();
    CallInFront(ADD, SpellPlace(DATE_PLACE, NowTokens(LostTail())), DateArgumentsText(NowText(LostTailText())));
    JoinWord();
    CallInFront(JOIN_WORD, InnerTokens(), InnerText());
    ReadBack(src, CallTokens(JOIN_WORD, InnerTokens()));
  }

  /** What the inner call reads, and what it leaves. */
  const NOW_READING := Plain(Now, Padded([BLANK], NOW), Padded([], RIGHT))

  lemma {:induction false} NowReadingSpelled(rest: seq<Token>)
    ensures SpellReading(NOW_READING, [CLOSE] + rest) == NowTokens(rest)
    ensures InVain(DATE_PLACE, NOW_READING)
    ensures ReadLeft(DATE_PLACE, NOW_READING, [CLOSE] + rest) == SpellArgs(ArgToken(RIGHT, NoArgs), [CLOSE] + rest)
  {
    NowSpelled(rest);
    NoGap(CLOSE, rest);
    NoGap(RIGHT, [CLOSE] + rest);
    var t := SpellPadded(Padded([BLANK], NOW), SpellPadded(Padded([], RIGHT), [CLOSE] + rest));
    assert SpellOperand(Now, t) == t;
    assert SpellArgs(NoArgs, [CLOSE] + rest) == [CLOSE] + rest;
  }

  lemma {:induction false} JoinSpelled()
    ensures CallTokens(JOIN_WORD, InnerTokens())
         == [OPEN] + SpellPadded(FN_KEY, SpellPadded(NameOf(JOIN_WORD), SpellArgs(ArgToken(LEFT, NoArgs),
              SpellCall(CallOf(ADD, DATE_PLACE), SpellReading(NOW_READING, [CLOSE] + LostTail())))))
  {
    NowReadingSpelled(LostTail());
    CallOfSpelled(ADD, DATE_PLACE, NowTokens(LostTail()));
    CallSpelled(JOIN_WORD, InnerTokens());
    NoGap(LEFT, InnerTokens());
    assert SpellArgs(NoArgs, InnerTokens()) == InnerTokens();
  }

  /** A parenthesis as an argument. */
  lemma {:induction false} Parenthesis(src: string, t: Token)
    requires t.kind == LPARENT || t.kind == RPARENT
    ensures WellFormedArgs(ArgToken(t, NoArgs)) && NestedFailures.UnitsBehind(ArgToken(t, NoArgs), true)
    ensures MeaningOfArgs(src, ArgToken(t, NoArgs), true) == t.literal
  {
    assert MeaningOfArgs(src, NoArgs, true) == "";
    assert t.literal + "" == t.literal;
    assert NestedFailures.UnitsBehind(NoArgs, true);
  }

  /** A call whose first argument reads an operand in vain, and the parenthesis it leaves. */
  lemma {:induction false} FirstArgumentSpliced(
      src: string, open: Token, key: Padded, name: Padded, left: Token, call: OpenCall, r: Reading,
      tail: seq<Token>, right: Token, end: Token, dropped: seq<Token>)
    requires Lexable(src, 0)
    requires TokensFrom(src, 0) == [open] + SpellPadded(key, SpellPadded(name,
                                     SpellArgs(ArgToken(left, NoArgs), SpellCall(call, SpellReading(r, tail)))))
    requires open.kind == LCURLY && Blanks(key.gap) && key.tok.kind == FN && left.kind == LPARENT
    requires Reads(name, false) && name.tok.kind == Scalar(CONCAT) && right.kind == RPARENT && end.kind == RCURLY
    requires WellFormedCall(call) && InVain(call.place, r)
    requires ReadLeft(call.place, r, tail) == SpellArgs(ArgToken(right, NoArgs), [end] + dropped)
    ensures RewriteSequence(src) == ServerName(CONCAT) + (left.literal + (src + right.literal))
  {
    Parenthesis(src, left);
    Parenthesis(src, right);
    NestedFailures.InVainSpliced(src, open, key, name, ArgToken(left, NoArgs), call, r, tail,
                                 ArgToken(right, NoArgs), end, dropped);
  }

  lemma {:induction false} JoinSpliced(
      src: string, call: OpenCall, r: Reading, tail: seq<Token>, dropped: seq<Token>)
    requires Lexable(src, 0)
    requires TokensFrom(src, 0) == [OPEN] + SpellPadded(FN_KEY, SpellPadded(NameOf(JOIN_WORD),
                                     SpellArgs(ArgToken(LEFT, NoArgs), SpellCall(call, SpellReading(r, tail)))))
    requires WellFormedCall(call) && InVain(call.place, r)
    requires ReadLeft(call.place, r, tail) == SpellArgs(ArgToken(RIGHT, NoArgs), [CLOSE] + dropped)
    ensures RewriteSequence(src) == ServerName(CONCAT) + (LEFT.literal + (src + RIGHT.literal))
  {
    IsPadded(JOIN_WORD);
    IsPadded(FN_WORD);
    FirstArgumentSpliced(src, OPEN, FN_KEY, NameOf(JOIN_WORD), LEFT, call, r, tail, RIGHT, CLOSE, dropped);
  }

  lemma {:induction false} JoinName()
    ensures ServerName(CONCAT) == "concat"
  {
  }

  lemma {:induction false} JoinSpoiled(src: string)
    requires VERTICAL_TAB !in src && src == CallText("CONCAT", InnerText())
    ensures RewriteSequence(src) == "concat" + ("(" + (src + ")"))
  {
    JoinRead(src);
    JoinSpelled();
    NowReadingSpelled(LostTail());
    DateCallWellFormed();
    JoinName();
    JoinSpliced(src, CallOf(ADD, DATE_PLACE), NOW_READING, [CLOSE] + LostTail(), LostTail());
  }

  lemma {:induction false} JoinWritten()
    ensures CallText("CONCAT", InnerText())
         == "{fn CONCAT({fn TIMESTAMPADD(SQL_TSI_DAY, 1," + " CURRENT_TIMESTAMP)}, 'x')}"
  {
    DateCallWritten(NowText(LostTailText()));
    JoinTail();
    JoinHead(InnerText());
    Concat3("{fn CONCAT(", "{fn TIMESTAMPADD(SQL_TSI_DAY, 1,", " CURRENT_TIMESTAMP)}, 'x')}");
    JoinFront();
  }

  lemma {:induction false} JoinHead(text: string)
    ensures CallText("CONCAT", text) == "{fn CONCAT(" + text
  {
  }

  lemma {:induction false} JoinFront()
    ensures "{fn CONCAT(" + "{fn TIMESTAMPADD(SQL_TSI_DAY, 1," == "{fn CONCAT({fn TIMESTAMPADD(SQL_TSI_DAY, 1,"
  {
  }

  lemma {:induction false} JoinTail()
    ensures NowText(LostTailText()) == " CURRENT_TIMESTAMP)}, 'x')}"
  {
    assert LostTailText() == ", 'x')}";
  }

  lemma {:induction false} JoinClean()
    ensures VERTICAL_TAB !in "{fn CONCAT({fn TIMESTAMPADD(SQL_TSI_DAY, 1,"
    ensures VERTICAL_TAB !in " CURRENT_TIMESTAMP)}, 'x')}"
  {
  }

  /** Inside another call one day from now spoils that one: the whole sequence stands in the place of the
      inner call, and the second argument is lost. */
  lemma {:induction false} NestedNowExample(src: string)
    requires src == "{fn CONCAT({fn TIMESTAMPADD(SQL_TSI_DAY, 1," + " CURRENT_TIMESTAMP)}, 'x')}"
    ensures Lexable(src, 0) && RewriteSequence(src) == "concat" + ("(" + (src + ")"))
  {
    JoinWritten();
    JoinClean();
    JoinSpoiled(src);
  }
}
