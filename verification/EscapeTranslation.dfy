/** The rewriter computes the meaning of every well-formed tree. */
module EscapeTranslation {
  import opened Chars
  import opened FunctionDeclare
  import opened Tokens
  import opened Lexer
  import opened LexerProperties
  import opened LexerPrinting
  import opened EscapeSequences
  import opened EscapeTrees

  // ---- Lexer steps over a spelling

  /** The next thing the lexer has to say is `p`, and `tail` follows. */
  predicate Ahead(s: LexState, p: Padded, tail: seq<Token>) {
    || (s.queue == [] && s.rest == SpellPadded(p, tail))
    || (s.queue == [p.tok] && s.rest == tail)
  }

  /** The same, or the first of the blanks in front of `p` has been looked at. */
  predicate Before(s: LexState, p: Padded, tail: seq<Token>) {
    || Ahead(s, p, tail)
    || (p.gap != [] && s.queue == [p.gap[0]] && s.rest == SpellPadded(Padded(p.gap[1..], p.tok), tail))
  }

  lemma {:induction false} PullGap(gap: seq<Token>, t: Token, tail: seq<Token>)
    requires Blanks(gap) && t.kind != SPACE
    ensures Pull(gap + ([t] + tail), false) == (t, tail)
  {
    if gap == [] {
      assert gap + ([t] + tail) == [t] + tail;
    } else {
      assert (gap + ([t] + tail))[1..] == gap[1..] + ([t] + tail);
      PullGap(gap[1..], t, tail);
    }
  }

  /** With blanks off, or none there, the next token is `p.tok`. */
  lemma {:induction false} Step(s: LexState, p: Padded, tail: seq<Token>)
    requires Ahead(s, p, tail) && (s.queue == [] ==> Reads(p, s.emit))
    ensures s.Head() == p.tok
    ensures s.Peeked() == LexState([p.tok], tail, s.emit)
    ensures s.Popped() == LexState([], tail, s.emit)
  {
    if s.queue == [] {
      if s.emit {
        assert s.rest == [p.tok] + tail;
      } else {
        PullGap(p.gap, p.tok, tail);
      }
    }
  }

  /** Skipping blanks stops at `p.tok` in either mode. */
  lemma {:induction false} Skip(s: LexState, p: Padded, tail: seq<Token>)
    requires Before(s, p, tail) && Blanks(p.gap) && p.tok.kind != SPACE
    ensures SkipSpaces(s) == LexState([p.tok], tail, s.emit)
    decreases |p.gap|, |s.queue|
  {
    var gap := Padded(if p.gap == [] then [] else p.gap[1..], p.tok);
    if Ahead(s, p, tail) {
      if s.queue == [] && s.emit && p.gap != [] {
        assert s.rest[0] == p.gap[0];
        assert s.rest[1..] == SpellPadded(gap, tail);
        Skip(s.Popped(), gap, tail);
      } else {
        Step(s, p, tail);
      }
    } else {
      assert s.Popped() == LexState([], SpellPadded(gap, tail), s.emit);
      Skip(s.Popped(), gap, tail);
    }
  }

  /** In front of a token that is not a blank, the next token is the first of the stream. */
  lemma {:induction false} StepFirst(t: Token, tail: seq<Token>, emit: bool)
    requires emit || t.kind != SPACE
    ensures var s := LexState([], [t] + tail, emit);
            && s.Head() == t
            && s.Peeked() == LexState([t], tail, emit)
            && s.Popped() == LexState([], tail, emit)
  {
    assert ([t] + tail)[1..] == tail;
  }

  lemma {:induction false} PopQueued(tok: Token, t: seq<Token>, emit: bool)
    ensures LexState([tok], t, emit).Popped() == LexState([], t, emit)
  {
  }

  /** What is not there is not found, and only looked at. */
  lemma {:induction false} NotThere(p: Padded, kind: TokenType, tail: seq<Token>, emit: bool)
    requires Blanks(p.gap) && p.tok.kind != SPACE && kind != SPACE && IsNot(p, kind, emit)
    ensures var s := LexState([], SpellPadded(p, tail), emit);
            s.Head().kind != kind && Before(s.Peeked(), p, tail)
  {
    var s := LexState([], SpellPadded(p, tail), emit);
    if emit && p.gap != [] {
      assert s.rest[0] == p.gap[0];
      assert s.rest[1..] == SpellPadded(Padded(p.gap[1..], p.tok), tail);
    } else {
      Step(s, p, tail);
    }
  }

  // ---- Escapes

  /** `r` is the text `text`, and the lexer has nothing queued and `tail` still to read. */
  predicate Leaves(r: Out, text: string, tail: seq<Token>) {
    r.text == text && r.lex.queue == [] && r.lex.rest == tail
  }

  /** `r` is the text `text`, and `next` is what the lexer finds behind it. */
  predicate Comes(r: Out, text: string, emit: bool, next: Padded, tail: seq<Token>) {
    r.text == text && r.lex.emit == emit && Before(r.lex, next, tail)
  }

  /** What follows the opening brace. */
  function SpellBehindOpen(e: EscapeTree, tail: seq<Token>): seq<Token> {
    SpellItems(e.items, SpellPadded(e.close, tail))
  }

  /** Rewriting a spelled tree yields its meaning, whatever follows it; the lexer is left just behind
      the tree with nothing queued. */
  lemma {:induction false} TranslateEscape(src: string, e: EscapeTree, tail: seq<Token>)
    requires src != "" && WellFormed(e)
    ensures Leaves(Escape(src, LexState([e.open], SpellBehindOpen(e, tail), false)), Meaning(src, e), tail)
    decreases e, 1
  {
    var s := LexState([], SpellBehindOpen(e, tail), false);
    PopQueued(e.open, s.rest, false);
    SpellNext(e.items, e.close, tail);
    TranslateItems(src, e.items, false, e.close, "", s, tail);
    assert "" + MeaningOfItems(src, e.items) == MeaningOfItems(src, e.items);
  }

  lemma {:induction false} SpellNext(items: Items, close: Padded, tail: seq<Token>)
    ensures SpellItems(items, SpellPadded(close, tail))
         == SpellPadded(NextOf(items, close), BehindNext(items, close, tail))
  {
  }

  lemma {:induction false} TranslateItems(
      src: string, items: Items, emit: bool, close: Padded, result: string, s: LexState, tail: seq<Token>)
    requires src != "" && WellFormedItems(items, emit, close)
    requires Before(s, NextOf(items, close), BehindNext(items, close, tail)) && s.emit == emit
    ensures Leaves(EscapeLoop(src, result, s),
                   if close.tok.kind == RCURLY then result + MeaningOfItems(src, items) else src, tail)
    decreases items, 1
  {
    match items
    case NoItems =>
      Skip(s, close, tail);
      assert result + "" == result;
    case MoreItems(key, item, rest) =>
      var next, behind := NextOf(rest, close), BehindNext(rest, close, tail);
      SpellNext(rest, close, tail);
      TranslateItem(src, key.tok.kind, item, emit, next, behind);
      var s1 := LexState([], SpellItem(item, SpellPadded(next, behind)), emit);
      var r := Item(src, key.tok.kind, s1);
      FirstItem(src, key, s1, result, s, r);
      TranslateItems(src, rest, EmitBehind(item, emit), close, result + r.text, r.lex, tail);
      Concat3(result, r.text, MeaningOfItems(src, rest));
  }

  lemma {:induction false} FirstItem(src: string, key: Padded, s1: LexState, result: string, s: LexState, r: Out)
    requires Before(s, key, s1.rest) && s1.queue == [] && s1.emit == s.emit
    requires Blanks(key.gap) && OpensItem(key.tok.kind) && r == Item(src, key.tok.kind, s1)
    ensures EscapeLoop(src, result, s) == EscapeLoop(src, result + r.text, r.lex)
  {
    Skip(s, key, s1.rest);
    PopQueued(key.tok, s1.rest, s.emit);
  }

  /** What is in front of an item's next token. */
  lemma {:induction false} NextTokens(items: Items, emit: bool, close: Padded)
    requires WellFormedItems(items, emit, close)
    ensures Blanks(NextOf(items, close).gap) && NextOf(items, close).tok.kind != SPACE
  {
  }

  lemma {:induction false} TranslateItem(
      src: string, key: TokenType, item: ItemTree, emit: bool, next: Padded, tail: seq<Token>)
    requires src != "" && OpensItem(key) && Blanks(next.gap) && next.tok.kind != SPACE
    requires if key == FN then WellFormedFunction(item, emit, next) else WellFormedLiteral(item, emit, next)
    ensures Comes(Item(src, key, LexState([], SpellItem(item, SpellPadded(next, tail)), emit)),
                  MeaningOfItem(src, key, item), EmitBehind(item, emit), next, tail)
    decreases item, 3
  {
    if key == FN {
      TranslateFunction(src, item, emit, next, tail);
    } else if item.Literal? {
      Step(LexState([], SpellPadded(item.lit, SpellPadded(next, tail)), emit), item.lit, SpellPadded(next, tail));
    } else {
      NotThere(next, STRING, tail, emit);
    }
  }

  // ---- Functions

  lemma {:induction false} TranslateFunction(src: string, item: ItemTree, emit: bool, next: Padded, tail: seq<Token>)
    requires src != "" && WellFormedFunction(item, emit, next) && Blanks(next.gap) && next.tok.kind != SPACE
    ensures Comes(Function(src, LexState([], SpellItem(item, SpellPadded(next, tail)), emit)),
                  MeaningOfItem(src, FN, item), EmitBehind(item, emit), next, tail)
    decreases item, 2
  {
    match item
    case Call(_, _) =>
      TranslateCall(src, item, emit, next, tail);
    case AddInterval(_, _, _, _, _, _, _, _) =>
      TranslateAddInterval(src, item, emit, next, tail);
    case LocateCall(_, _, _, _, _, _, _, _) =>
      TranslateLocate(src, item, emit, next, tail);
    case LtrimCall(_, _, _, _) =>
      TranslateLtrim(src, item, emit, next, tail);
    case CurrentTimestamp(_) =>
      TranslateTimestamp(src, item, emit, next, tail);
    case CurrentTimestampOf(_, _, _) =>
      TranslateTimestamp(src, item, emit, next, tail);
    case GivenUp(call) =>
      TranslatePartial(src, call, emit, next, tail);
  }

  lemma {:induction false} TranslateCall(src: string, item: ItemTree, emit: bool, next: Padded, tail: seq<Token>)
    requires src != "" && WellFormedFunction(item, emit, next) && item.Call?
    ensures Comes(Function(src, LexState([], SpellItem(item, SpellPadded(next, tail)), emit)),
                  MeaningOfItem(src, FN, item), EmitBehind(item, emit), next, tail)
    decreases item, 0
  {
    assert SpellPadded(next, tail) == [next.tok] + tail;
    CallHead(src, item.name, SpellArgs(item.args, [next.tok] + tail), emit);
    TranslateArgs(src, item.name.tok.kind.f, item.args, next.tok, tail);
  }

  /** CURRENT_TIMESTAMP, whatever its parentheses hold. */
  lemma {:induction false} TranslateTimestamp(src: string, item: ItemTree, emit: bool, next: Padded, tail: seq<Token>)
    requires src != "" && WellFormedFunction(item, emit, next) && (item.CurrentTimestamp? || item.CurrentTimestampOf?)
    requires Blanks(next.gap) && next.tok.kind != SPACE
    ensures Comes(Function(src, LexState([], SpellItem(item, SpellPadded(next, tail)), emit)),
                  MeaningOfItem(src, FN, item), EmitBehind(item, emit), next, tail)
    decreases item, 0
  {
    var t := SpellPadded(next, tail);
    if item.CurrentTimestamp? {
      CurrentTimestampName(src, item.name, t, emit);
      NotThere(next, LPARENT, tail, emit);
    } else {
      var t1 := SpellBody(item.body, t);
      CurrentTimestampName(src, item.name, SpellPadded(item.lparen, t1), emit);
      Step(LexState([], SpellPadded(item.lparen, t1), emit), item.lparen, t1);
      TranslateParentheses(src, item.lparen.tok, item.body, emit, t);
    }
  }

  lemma {:induction false} CallHead(src: string, name: Padded, t: seq<Token>, emit: bool)
    requires Reads(name, emit) && name.tok.kind.Scalar? && name.tok.kind.f != TIMESTAMPADD
    ensures var r := FunctionLoop(src, name.tok.kind.f, LexState([], t, true));
            Function(src, LexState([], SpellPadded(name, t), emit))
              == Out(ServerName(name.tok.kind.f) + r.text, r.lex.(emit := false))
  {
    var s := LexState([], SpellPadded(name, t), emit);
    Step(s, name, t);
    assert Function(src, s) == Arguments(src, name.tok.kind.f, s.Popped());
  }

  lemma {:induction false} CurrentTimestampName(src: string, name: Padded, t: seq<Token>, emit: bool)
    requires Is(name, Tokens.CURRENT_TIMESTAMP, emit)
    ensures Function(src, LexState([], SpellPadded(name, t), emit))
         == EscapeSequences.CurrentTimestamp(src, LexState([], t, emit))
  {
    Step(LexState([], SpellPadded(name, t), emit), name, t);
  }

  // ---- TIMESTAMPADD

  /** `TIMESTAMPADD(unit,` is read, and the rest is the interval's. */
  lemma {:induction false} AddIntervalHead(
      src: string, name: Padded, lparen: Padded, unit: Padded, comma: Padded, t: seq<Token>, emit: bool)
    requires WellFormedHead(name, lparen, unit, comma, emit)
    ensures Function(src, LexState([], SpellPadded(name, SpellPadded(lparen, SpellPadded(unit,
                                         SpellPadded(comma, t)))), emit))
         == AddedInterval(src, unit.tok.kind, LexState([], t, emit))
  {
    var t2 := SpellPadded(comma, t);
    UpToUnit(src, name, lparen, unit, t2, emit);
    Step(LexState([], t2, emit), comma, t);
  }

  /** `TIMESTAMPADD(unit` is read. */
  lemma {:induction false} UpToUnit(
      src: string, name: Padded, lparen: Padded, unit: Padded, t: seq<Token>, emit: bool)
    requires Is(name, Scalar(TIMESTAMPADD), emit) && Is(lparen, LPARENT, emit) && Reads(unit, emit)
    ensures var s2 := LexState([], t, emit);
            Function(src, LexState([], SpellPadded(name, SpellPadded(lparen, SpellPadded(unit, t))), emit))
              == if !IsUnit(unit.tok.kind) then Out(src, s2)
                 else if s2.Head().kind != COMMA then Out(src, s2.Peeked())
                 else AddedInterval(src, unit.tok.kind, s2.Popped())
  {
    var t1 := SpellPadded(unit, t);
    NameAndParenthesis(name, lparen, t1, emit);
    Step(LexState([], t1, emit), unit, t);
    var s := LexState([], SpellPadded(name, SpellPadded(lparen, t1)), emit);
    assert Function(src, s) == TimestampAdd(src, s.Popped());
  }

  /** The name of a function and its opening parenthesis. */
  lemma {:induction false} NameAndParenthesis(name: Padded, lparen: Padded, t: seq<Token>, emit: bool)
    requires Reads(name, emit) && Is(lparen, LPARENT, emit)
    ensures var s := LexState([], SpellPadded(name, SpellPadded(lparen, t)), emit);
            && s.Head() == name.tok && s.Popped().Head().kind == LPARENT
            && s.Popped().Popped() == LexState([], t, emit)
  {
    var s := LexState([], SpellPadded(name, SpellPadded(lparen, t)), emit);
    Step(s, name, SpellPadded(lparen, t));
    Step(s.Popped(), lparen, t);
  }

  /** TIMESTAMPADD(unit, amount, date) becomes the server's function. */
  lemma {:induction false} TranslateAddInterval(
      src: string, item: ItemTree, emit: bool, next: Padded, tail: seq<Token>)
    requires src != "" && WellFormedFunction(item, emit, next) && item.AddInterval?
    ensures Comes(Function(src, LexState([], SpellItem(item, SpellPadded(next, tail)), emit)),
                  MeaningOfItem(src, FN, item), EmitBehind(item, emit), next, tail)
    decreases item, 0
  {
    var t3 := SpellPadded(next, tail);
    var t2 := SpellOperand(item.date, SpellPadded(item.rparen, t3));
    var t1 := SpellOperand(item.amount, SpellPadded(item.comma2, t2));
    var emit2 := emit || Compound(item.amount);
    AddIntervalHead(src, item.name, item.lparen, item.unit, item.comma1, t1, emit);
    TranslateOperand(src, item.amount, emit, item.comma2, t2);
    MeaningNotEmpty(src, item.amount, emit, item.comma2);
    TranslateOperand(src, item.date, emit2, item.rparen, t3);
    MeaningNotEmpty(src, item.date, emit2, item.rparen);
    BehindDate(src, LexState([], t1, emit), item.unit.tok.kind, MeaningOfOperand(src, item.amount), item.comma2.tok,
               LexState([], t2, emit2), MeaningOfOperand(src, item.date), item.rparen.tok, t3,
               emit2 || Compound(item.date));
  }

  /** Both operands are read, and `behind` is the token after them. */
  lemma {:induction false} BehindDate(
      src: string, s: LexState, unit: TokenType, amount: string, comma: Token, s2: LexState, date: string,
      behind: Token, t: seq<Token>, emit: bool)
    requires amount != "" && comma.kind == COMMA && behind.kind != SPACE && s2.queue == []
    requires IdentOrFunction(src, s) == Out(amount, LexState([comma], s2.rest, s2.emit))
    requires IdentOrFunction(src, s2) == Out(date, LexState([behind], t, emit))
    ensures AddedInterval(src, unit, s)
         == if date == "" || behind.kind != RPARENT then Out(src, LexState([behind], t, emit))
            else Out(ServerName(TIMESTAMPADD) + "(" + UnitName(unit) + ", " + amount + ", " + date + ")",
                     LexState([], t, emit))
  {
    PopQueued(comma, s2.rest, s2.emit);
    PopQueued(behind, t, emit);
  }

  /** The amount is read, and no comma stands behind it. */
  lemma {:induction false} BehindAmount(
      src: string, s: LexState, unit: TokenType, amount: string, behind: Token, t: seq<Token>, emit: bool)
    requires (amount == "" || behind.kind != COMMA) && behind.kind != SPACE
    requires IdentOrFunction(src, s) == Out(amount, LexState([behind], t, emit))
    ensures AddedInterval(src, unit, s) == Out(src, LexState([behind], t, emit))
  {
  }

  // ---- LTRIM and LOCATE

  lemma {:induction false} LtrimOf(src: string, name: Padded, lparen: Padded, t: seq<Token>, emit: bool, param: Out)
    requires Is(name, LTRIM, emit) && Is(lparen, LPARENT, emit)
    requires param == IdentOrFunction(src, LexState([], t, emit))
    ensures Function(src, LexState([], SpellPadded(name, SpellPadded(lparen, t)), emit))
         == if param.text == "" then Out(src, param.lex) else Out(TrimCall(param.text), param.lex.Popped())
  {
    NameAndParenthesis(name, lparen, t, emit);
    var s := LexState([], SpellPadded(name, SpellPadded(lparen, t)), emit);
    assert Function(src, s) == Ltrim(src, s.Popped());
  }

  /** LTRIM becomes a replacement of leading blanks. */
  lemma {:induction false} TranslateLtrim(src: string, item: ItemTree, emit: bool, next: Padded, tail: seq<Token>)
    requires src != "" && WellFormedFunction(item, emit, next) && item.LtrimCall?
    ensures Comes(Function(src, LexState([], SpellItem(item, SpellPadded(next, tail)), emit)),
                  MeaningOfItem(src, FN, item), EmitBehind(item, emit), next, tail)
    decreases item, 0
  {
    var t := SpellPadded(next, tail);
    var emit1 := emit || Compound(item.param);
    TranslateOperand(src, item.param, emit, item.skipped, t);
    MeaningNotEmpty(src, item.param, emit, item.skipped);
    PopQueued(item.skipped.tok, t, emit1);
    LtrimOf(src, item.name, item.lparen, SpellOperand(item.param, SpellPadded(item.skipped, t)), emit,
            Out(MeaningOfOperand(src, item.param), LexState([item.skipped.tok], t, emit1)));
  }

  /** What LOCATE does behind its first operand. */
  function BehindNeedle(src: string, needle: Out): Out {
    if needle.text == "" then Out(src, needle.lex)
    else BehindHaystack(src, needle.text, IdentOrFunction(src, needle.lex.Popped()))
  }

  /** And behind its second. */
  function BehindHaystack(src: string, needle: string, haystack: Out): Out {
    if haystack.text == "" then Out(src, haystack.lex)
    else Out(PositionCall(haystack.text, needle), IdentOrFunction(src, haystack.lex.Popped()).lex.Popped())
  }

  /** The operands of LOCATE are read in turn; the tokens behind them are consumed unseen. */
  lemma {:induction false} LocateOf(src: string, name: Padded, lparen: Padded, t: seq<Token>, emit: bool)
    requires Is(name, LOCATE, emit) && Is(lparen, LPARENT, emit)
    ensures Function(src, LexState([], SpellPadded(name, SpellPadded(lparen, t)), emit))
         == BehindNeedle(src, IdentOrFunction(src, LexState([], t, emit)))
  {
    hide IdentOrFunction;
    NameAndParenthesis(name, lparen, t, emit);
    var s := LexState([], SpellPadded(name, SpellPadded(lparen, t)), emit);
    assert Function(src, s) == Locate(src, s.Popped());
  }

  /** LOCATE with an offset becomes a call with the first two operands exchanged. */
  lemma {:induction false} TranslateLocate(src: string, item: ItemTree, emit: bool, next: Padded, tail: seq<Token>)
    requires src != "" && WellFormedFunction(item, emit, next) && item.LocateCall?
    ensures Comes(Function(src, LexState([], SpellItem(item, SpellPadded(next, tail)), emit)),
                  MeaningOfItem(src, FN, item), EmitBehind(item, emit), next, tail)
    decreases item, 0
  {
    var t3 := SpellPadded(next, tail);
    var t2 := SpellOperand(item.offset, SpellPadded(item.skipped3, t3));
    var t1 := SpellOperand(item.haystack, SpellPadded(item.skipped2, t2));
    var t0 := SpellOperand(item.needle, SpellPadded(item.skipped1, t1));
    var emit1 := emit || Compound(item.needle);
    var emit2 := emit1 || Compound(item.haystack);
    LocateOf(src, item.name, item.lparen, t0, emit);
    ReadOperand(src, item.needle, emit, item.skipped1, t1);
    ReadOperand(src, item.haystack, emit1, item.skipped2, t2);
    TranslateOperand(src, item.offset, emit2, item.skipped3, t3);
    PopQueued(item.skipped3.tok, t3, emit2 || Compound(item.offset));
  }

  /** An operand, and the token behind it consumed unseen. */
  lemma {:induction false} ReadOperand(src: string, op: OperandTree, emit: bool, skipped: Padded, tail: seq<Token>)
    requires src != "" && WellFormedOperand(op, emit, skipped) && !op.Missing?
    ensures var r := IdentOrFunction(src, LexState([], SpellOperand(op, SpellPadded(skipped, tail)), emit));
            && r.text == MeaningOfOperand(src, op) && r.text != ""
            && r.lex.Popped() == LexState([], tail, emit || Compound(op))
    decreases op, 3
  {
    TranslateOperand(src, op, emit, skipped, tail);
    MeaningNotEmpty(src, op, emit, skipped);
    PopQueued(skipped.tok, tail, emit || Compound(op));
  }

  // ---- Calls that are given up

  /** A call that cannot be translated is written as the whole sequence, and the token that shows it is
      what the lexer finds next. */
  lemma {:induction false} TranslatePartial(src: string, call: Partial, emit: bool, next: Padded, tail: seq<Token>)
    requires src != "" && Fails(call, emit, next) && Blanks(next.gap) && next.tok.kind != SPACE
    ensures Comes(Function(src, LexState([], SpellPartial(call, SpellPadded(next, tail)), emit)),
                  src, EmitBehindPartial(call, emit), next, tail)
    decreases call, 1
  {
    match call
    case NoSecondComma(_, _, _, _, _) =>
      AmountNotEnded(src, call, emit, next, tail);
    case NoEnd(_, _, _, _, _, _, _) =>
      IntervalNotClosed(src, call, emit, next, tail);
    case NoOperand(_, _) =>
      FirstOperandMissing(src, call, emit, next, tail);
    case NoHaystack(_, _, _, _) =>
      HaystackMissing(src, call, emit, next, tail);
    case _ =>
      NotStarted(src, call, emit, next, tail);
  }

  /** A call that fails in front of its first operand. */
  lemma {:induction false} NotStarted(src: string, call: Partial, emit: bool, next: Padded, tail: seq<Token>)
    requires Fails(call, emit, next) && Blanks(next.gap) && next.tok.kind != SPACE
    requires call.NoFunction? || call.NoParenthesis? || call.NoUnit? || call.NoComma?
    ensures Comes(Function(src, LexState([], SpellPartial(call, SpellPadded(next, tail)), emit)),
                  src, emit, next, tail)
  {
    var t := SpellPadded(next, tail);
    match call
    case NoFunction(name) =>
      Step(LexState([], SpellPadded(name, t), emit), name, t);
    case NoParenthesis(name) =>
      Step(LexState([], SpellPadded(name, t), emit), name, t);
      NotThere(next, LPARENT, tail, emit);
    case NoUnit(name, lparen, unit) =>
      UpToUnit(src, name, lparen, unit, t, emit);
    case NoComma(name, lparen, unit) =>
      UpToUnit(src, name, lparen, unit, t, emit);
      NotThere(next, COMMA, tail, emit);
  }

  lemma {:induction false} AmountNotEnded(src: string, call: Partial, emit: bool, next: Padded, tail: seq<Token>)
    requires src != "" && Fails(call, emit, next) && call.NoSecondComma?
    ensures Comes(Function(src, LexState([], SpellPartial(call, SpellPadded(next, tail)), emit)),
                  src, EmitBehindPartial(call, emit), next, tail)
    decreases call, 0
  {
    var t := SpellOperand(call.amount, SpellPadded(next, tail));
    AddIntervalHead(src, call.name, call.lparen, call.unit, call.comma1, t, emit);
    TranslateOperand(src, call.amount, emit, next, tail);
    BehindAmount(src, LexState([], t, emit), call.unit.tok.kind, MeaningOfOperand(src, call.amount),
                 next.tok, tail, emit || Compound(call.amount));
  }

  lemma {:induction false} IntervalNotClosed(src: string, call: Partial, emit: bool, next: Padded, tail: seq<Token>)
    requires src != "" && Fails(call, emit, next) && call.NoEnd?
    ensures Comes(Function(src, LexState([], SpellPartial(call, SpellPadded(next, tail)), emit)),
                  src, EmitBehindPartial(call, emit), next, tail)
    decreases call, 0
  {
    var t2 := SpellOperand(call.date, SpellPadded(next, tail));
    var t1 := SpellOperand(call.amount, SpellPadded(call.comma2, t2));
    var emit2 := emit || Compound(call.amount);
    AddIntervalHead(src, call.name, call.lparen, call.unit, call.comma1, t1, emit);
    TranslateOperand(src, call.amount, emit, call.comma2, t2);
    MeaningNotEmpty(src, call.amount, emit, call.comma2);
    TranslateOperand(src, call.date, emit2, next, tail);
    BehindDate(src, LexState([], t1, emit), call.unit.tok.kind, MeaningOfOperand(src, call.amount), call.comma2.tok,
               LexState([], t2, emit2), MeaningOfOperand(src, call.date), next.tok, tail,
               emit2 || Compound(call.date));
  }

  lemma {:induction false} FirstOperandMissing(src: string, call: Partial, emit: bool, next: Padded, tail: seq<Token>)
    requires src != "" && Fails(call, emit, next) && call.NoOperand? && Blanks(next.gap) && next.tok.kind != SPACE
    ensures Comes(Function(src, LexState([], SpellPartial(call, SpellPadded(next, tail)), emit)),
                  src, emit, next, tail)
    decreases call, 0
  {
    var t := SpellPadded(next, tail);
    OperandMissing(src, emit, next, tail);
    if call.name.tok.kind == LTRIM {
      LtrimOf(src, call.name, call.lparen, t, emit, Out("", LexState([next.tok], tail, emit)));
    } else {
      LocateOf(src, call.name, call.lparen, t, emit);
    }
  }

  lemma {:induction false} HaystackMissing(src: string, call: Partial, emit: bool, next: Padded, tail: seq<Token>)
    requires src != "" && Fails(call, emit, next) && call.NoHaystack? && Blanks(next.gap) && next.tok.kind != SPACE
    ensures Comes(Function(src, LexState([], SpellPartial(call, SpellPadded(next, tail)), emit)),
                  src, EmitBehindPartial(call, emit), next, tail)
    decreases call, 0
  {
    var t := SpellPadded(next, tail);
    var emit1 := emit || Compound(call.needle);
    LocateOf(src, call.name, call.lparen, SpellOperand(call.needle, SpellPadded(call.skipped1, t)), emit);
    ReadOperand(src, call.needle, emit, call.skipped1, t);
    OperandMissing(src, emit1, next, tail);
  }

  // ---- Operands

  /** An operand is read up to the next token, `next`, the blanks in front of it included. */
  lemma {:induction false} TranslateOperand(
      src: string, op: OperandTree, emit: bool, next: Padded, tail: seq<Token>)
    requires src != "" && WellFormedOperand(op, emit, next)
    ensures IdentOrFunction(src, LexState([], SpellOperand(op, SpellPadded(next, tail)), emit))
         == Out(MeaningOfOperand(src, op), LexState([next.tok], tail, emit || Compound(op)))
    decreases op, 2
  {
    if op.Now? {
      TimestampStays(src, emit, next, tail);
    } else if op.Missing? {
      OperandMissing(src, emit, next, tail);
    } else {
      var behind := SpellPadded(next, tail);
      var s := LexState([], SpellOperand(op, behind), emit);
      var s0 := LexState([FirstTokenOf(op).tok], AfterFirst(op, behind), emit);
      SpellFirst(op, behind);
      FirstStarts(op, emit, next);
      Skip(s, FirstTokenOf(op), s0.rest);
      if op.Simple? {
        SimpleOperand(src, s0, op.lit.tok, next, tail);
      } else {
        CompoundOperand(src, op, emit, next, behind);
        Skip(LexState([], behind, true), next, tail);
      }
    }
  }

  /** A bare CURRENT_TIMESTAMP is left in the queue. */
  lemma {:induction false} TimestampStays(src: string, emit: bool, now: Padded, tail: seq<Token>)
    requires Blanks(now.gap) && now.tok.kind == Tokens.CURRENT_TIMESTAMP
    ensures IdentOrFunction(src, LexState([], SpellPadded(now, tail), emit))
         == Out(CURRENT_TIMESTAMP_CALL, LexState([now.tok], tail, emit))
  {
    Skip(LexState([], SpellPadded(now, tail), emit), now, tail);
    var s := LexState([now.tok], tail, emit);
    assert Operand(src, s) == Out(CURRENT_TIMESTAMP_CALL, s);
  }

  lemma {:induction false} OperandMissing(src: string, emit: bool, next: Padded, tail: seq<Token>)
    requires Blanks(next.gap) && next.tok.kind != SPACE && !OpensOperand(next.tok.kind)
    ensures IdentOrFunction(src, LexState([], SpellPadded(next, tail), emit))
         == Out("", LexState([next.tok], tail, emit))
  {
    Skip(LexState([], SpellPadded(next, tail), emit), next, tail);
  }

  function FirstTokenOf(op: OperandTree): Padded
    requires !op.Now? && !op.Missing?
  {
    match op
    case Simple(lit) => lit
    case Group(lparen, _) => lparen
    case Named(name, _, _) => name
    case ScalarCall(name, _, _) => name
    case Braced(gap, e) => Padded(gap, e.open)
  }

  function AfterFirst(op: OperandTree, tail: seq<Token>): seq<Token>
    requires !op.Now? && !op.Missing?
  {
    match op
    case Simple(_) => tail
    case Group(_, body) => SpellBody(body, tail)
    case Named(_, lparen, body) => SpellPadded(lparen, SpellBody(body, tail))
    case ScalarCall(_, open, body) => [open] + SpellBody(body, tail)
    case Braced(_, e) => SpellBehindOpen(e, tail)
  }

  lemma {:induction false} SpellFirst(op: OperandTree, tail: seq<Token>)
    requires !op.Now? && !op.Missing?
    ensures SpellOperand(op, tail) == SpellPadded(FirstTokenOf(op), AfterFirst(op, tail))
  {
  }

  lemma {:induction false} FirstStarts(op: OperandTree, emit: bool, next: Padded)
    requires WellFormedOperand(op, emit, next) && !op.Now? && !op.Missing?
    ensures Blanks(FirstTokenOf(op).gap) && StartsOperand(FirstTokenOf(op).tok.kind)
  {
  }

  /** Reading one token ahead behind a queued one stops at `p`. */
  lemma {:induction false} LookBehind(s: LexState, t: Token, p: Padded, tail: seq<Token>)
    requires s == LexState([t], SpellPadded(p, tail), s.emit) && Reads(p, s.emit)
    ensures s.Filled(2) == LexState([t, p.tok], tail, s.emit)
    ensures s.Filled(2).Popped() == LexState([p.tok], tail, s.emit)
  {
    if s.emit {
      assert s.rest == [p.tok] + tail;
    } else {
      PullGap(p.gap, p.tok, tail);
    }
    assert s.Pulled() == LexState([t, p.tok], tail, s.emit);
  }

  lemma {:induction false} SimpleOperand(src: string, s: LexState, t: Token, next: Padded, tail: seq<Token>)
    requires s == LexState([t], SpellPadded(next, tail), s.emit)
    requires t.kind == NUMBER || t.kind == STRING || (t.kind == IDENT && IsNot(next, LPARENT, s.emit))
    requires Blanks(next.gap) && next.tok.kind != SPACE
    ensures var r := Operand(src, s);
            r.text == t.literal && SkipSpaces(r.lex) == LexState([next.tok], tail, s.emit)
  {
    var s1 := LexState([], s.rest, s.emit);
    if t.kind != IDENT {
      assert s.Popped() == s1;
      Skip(s1, next, tail);
    } else if s.emit && next.gap != [] {
      IdentBeforeBlank(src, s, t, next, tail);
    } else {
      LookBehind(s, t, next, tail);
      Skip(LexState([next.tok], tail, s.emit), next, tail);
    }
  }

  lemma {:induction false} IdentBeforeBlank(src: string, s: LexState, t: Token, next: Padded, tail: seq<Token>)
    requires s == LexState([t], SpellPadded(next, tail), true) && t.kind == IDENT
    requires Blanks(next.gap) && next.gap != [] && next.tok.kind != SPACE
    ensures var r := Operand(src, s);
            r.text == t.literal && SkipSpaces(r.lex) == LexState([next.tok], tail, true)
  {
    var first, gap := next.gap[0], Padded(next.gap[1..], next.tok);
    var more := SpellPadded(gap, tail);
    assert s.rest == [first] + more;
    assert s.Pulled() == LexState([t, first], more, true);
    assert s.Filled(2).Popped() == LexState([first], more, true);
    Skip(LexState([first], more, true), next, tail);
  }

  lemma {:induction false} CompoundOperand(src: string, op: OperandTree, emit: bool, next: Padded, tail: seq<Token>)
    requires src != "" && WellFormedOperand(op, emit, next) && Compound(op) && StartsOperand(FirstTokenOf(op).tok.kind)
    ensures Operand(src, LexState([FirstTokenOf(op).tok], AfterFirst(op, tail), emit))
         == Out(MeaningOfOperand(src, op), LexState([], tail, true))
    decreases op, 1
  {
    match op
    case Group(lparen, body) =>
      TranslateParentheses(src, lparen.tok, body, emit, tail);
    case Named(name, lparen, body) =>
      NamedOperand(src, name.tok, lparen, SpellBody(body, tail), emit);
      TranslateParentheses(src, lparen.tok, body, emit, tail);
    case ScalarCall(name, open, body) =>
      ScalarOperand(src, name.tok, open, SpellBody(body, tail), emit);
      TranslateParentheses(src, open, body, emit, tail);
    case Braced(gap, e) =>
      TranslateEscape(src, e, tail);
      NestedOut(src, e.open, SpellBehindOpen(e, tail), emit, Meaning(src, e), tail);
  }

  lemma {:induction false} NamedOperand(src: string, name: Token, lparen: Padded, inner: seq<Token>, emit: bool)
    requires name.kind == IDENT && Is(lparen, LPARENT, emit)
    ensures var r := Parentheses(src, LexState([lparen.tok], inner, emit));
            Operand(src, LexState([name], SpellPadded(lparen, inner), emit)) == Out(name.literal + r.text, r.lex)
  {
    LookBehind(LexState([name], SpellPadded(lparen, inner), emit), name, lparen, inner);
  }

  lemma {:induction false} ScalarOperand(src: string, name: Token, open: Token, inner: seq<Token>, emit: bool)
    requires name.kind.Scalar?
    ensures var r := Parentheses(src, LexState([open], inner, emit));
            Operand(src, LexState([name], [open] + inner, emit)) == Out(ServerName(name.kind.f) + r.text, r.lex)
  {
    StepFirst(open, inner, true);
    var s := LexState([], [open] + inner, emit);
    assert Parentheses(src, s) == Parentheses(src, LexState([open], inner, emit));
    assert LexState([name], [open] + inner, emit).Popped() == s;
  }

  /** Whatever token stands for the opening parenthesis. */
  lemma {:induction false} TranslateParentheses(
      src: string, open: Token, body: Body, emit: bool, tail: seq<Token>)
    requires src != "" && WellFormedBody(body)
    ensures Parentheses(src, LexState([open], SpellBody(body, tail), emit))
         == Out(open.literal + MeaningOfBody(src, body), LexState([], tail, true))
    decreases body, 2
  {
    TranslateBody(src, body, tail);
    assert LexState([open], SpellBody(body, tail), true).Popped() == LexState([], SpellBody(body, tail), true);
  }

  lemma {:induction false} TranslateBody(src: string, body: Body, tail: seq<Token>)
    requires src != "" && WellFormedBody(body)
    ensures ParenthesesLoop(src, LexState([], SpellBody(body, tail), true))
         == Out(MeaningOfBody(src, body), LexState([], tail, true))
    decreases body, 1
  {
    match body
    case Close(tok) =>
      StepFirst(tok, tail, true);
    case BodyToken(tok, rest) =>
      StepFirst(tok, SpellBody(rest, tail), true);
      TranslateBody(src, rest, tail);
    case BodyGroup(open, inner, rest) =>
      var behind := SpellBody(rest, tail);
      TranslateParentheses(src, open, inner, true, behind);
      GroupInParentheses(src, open, SpellBody(inner, behind));
      TranslateBody(src, rest, tail);
    case BodyEscape(e, rest) =>
      TranslateEscape(src, e, SpellBody(rest, tail));
      NestedInParentheses(src, e, SpellBody(rest, tail));
      TranslateBody(src, rest, tail);
  }

  lemma {:induction false} GroupInParentheses(src: string, open: Token, inside: seq<Token>)
    requires open.kind == LPARENT
    ensures var p := Parentheses(src, LexState([open], inside, true));
            var r := ParenthesesLoop(src, p.lex);
            ParenthesesLoop(src, LexState([], [open] + inside, true)) == Out(p.text + r.text, r.lex)
  {
    StepFirst(open, inside, true);
  }

  lemma {:induction false} NestedOut(
      src: string, open: Token, inside: seq<Token>, emit: bool, text: string, tail: seq<Token>)
    requires Leaves(Escape(src, LexState([open], inside, false)), text, tail)
    ensures Nested(src, LexState([open], inside, emit)) == Out(text, LexState([], tail, true))
  {
  }

  /** Both copying loops replace a nested escape by its translation and go on behind it. */
  lemma {:induction false} NestedInArguments(src: string, f: ScalarFunction, e: EscapeTree, tail: seq<Token>)
    requires e.open.kind == LCURLY
    requires Leaves(Escape(src, LexState([e.open], SpellBehindOpen(e, tail), false)), Meaning(src, e), tail)
    ensures var r := FunctionLoop(src, f, LexState([], tail, true));
            FunctionLoop(src, f, LexState([], SpellEscape(e, tail), true)) == Out(Meaning(src, e) + r.text, r.lex)
  {
    StepFirst(e.open, SpellBehindOpen(e, tail), true);
    NestedOut(src, e.open, SpellBehindOpen(e, tail), true, Meaning(src, e), tail);
  }

  lemma {:induction false} NestedInParentheses(src: string, e: EscapeTree, tail: seq<Token>)
    requires e.open.kind == LCURLY
    requires Leaves(Escape(src, LexState([e.open], SpellBehindOpen(e, tail), false)), Meaning(src, e), tail)
    ensures var r := ParenthesesLoop(src, LexState([], tail, true));
            ParenthesesLoop(src, LexState([], SpellEscape(e, tail), true)) == Out(Meaning(src, e) + r.text, r.lex)
  {
    StepFirst(e.open, SpellBehindOpen(e, tail), true);
    NestedOut(src, e.open, SpellBehindOpen(e, tail), true, Meaning(src, e), tail);
  }

  // ---- Arguments

  /** Where the arguments end: at the closing brace, or at a token that is none. */
  predicate EndsArgs(kind: TokenType) { kind == RCURLY || kind == INVALID }

  /** The arguments of a renamed function are read up to their end, which stays queued. */
  lemma {:induction false} TranslateArgs(
      src: string, f: ScalarFunction, args: Args, end: Token, tail: seq<Token>)
    requires src != "" && WellFormedArgs(args) && EndsArgs(end.kind)
    ensures var r := FunctionLoop(src, f, LexState([], SpellArgs(args, [end] + tail), true));
            r.text == MeaningOfArgs(src, args, f != EXTRACT) && r.lex.queue == [end] && r.lex.rest == tail
    decreases args, 1
  {
    match args
    case NoArgs =>
      StepFirst(end, tail, true);
    case ArgToken(tok, rest) =>
      if tok.kind == Scalar(EXTRACT) {
        TranslateExtract(src, f, args, end, tail);
      } else {
        TranslateArgToken(src, f, args, end, tail);
      }
    case ArgEscape(_, _) =>
      TranslateArgEscape(src, f, args, end, tail);
  }

  lemma {:induction false} TranslateArgToken(
      src: string, f: ScalarFunction, args: Args, end: Token, tail: seq<Token>)
    requires src != "" && args.ArgToken? && args.tok.kind != Scalar(EXTRACT)
    requires WellFormedArgs(args) && EndsArgs(end.kind)
    ensures var r := FunctionLoop(src, f, LexState([], SpellArgs(args, [end] + tail), true));
            r.text == MeaningOfArgs(src, args, f != EXTRACT) && r.lex.queue == [end] && r.lex.rest == tail
    decreases args, 0
  {
    TranslateArgs(src, f, args.rest, end, tail);
    CopyToken(src, f, args.tok, SpellArgs(args.rest, [end] + tail));
  }

  lemma {:induction false} TranslateExtract(
      src: string, f: ScalarFunction, args: Args, end: Token, tail: seq<Token>)
    requires src != "" && args.ArgToken? && args.tok.kind == Scalar(EXTRACT)
    requires WellFormedArgs(args) && EndsArgs(end.kind)
    ensures var r := FunctionLoop(src, f, LexState([], SpellArgs(args, [end] + tail), true));
            r.text == MeaningOfArgs(src, args, f != EXTRACT) && r.lex.queue == [end] && r.lex.rest == tail
    decreases args, 0
  {
    TranslateArgs(src, EXTRACT, args.rest, end, tail);
    ExtractSwallows(src, f, args.tok, SpellArgs(args.rest, [end] + tail), end, tail);
  }

  lemma {:induction false} TranslateArgEscape(
      src: string, f: ScalarFunction, args: Args, end: Token, tail: seq<Token>)
    requires src != "" && args.ArgEscape? && WellFormedArgs(args) && EndsArgs(end.kind)
    ensures var r := FunctionLoop(src, f, LexState([], SpellArgs(args, [end] + tail), true));
            r.text == MeaningOfArgs(src, args, f != EXTRACT) && r.lex.queue == [end] && r.lex.rest == tail
    decreases args, 0
  {
    var behind := SpellArgs(args.rest, [end] + tail);
    TranslateEscape(src, args.e, behind);
    NestedInArguments(src, f, args.e, behind);
    TranslateArgs(src, f, args.rest, end, tail);
  }

  lemma {:induction false} CopyToken(src: string, f: ScalarFunction, tok: Token, t: seq<Token>)
    requires tok.kind != RCURLY && tok.kind != LCURLY && tok.kind != EOS && tok.kind != INVALID
    requires tok.kind != Scalar(EXTRACT)
    ensures var r := FunctionLoop(src, f, LexState([], t, true));
            FunctionLoop(src, f, LexState([], [tok] + t, true)) == Out(ArgumentText(f, tok) + r.text, r.lex)
  {
    StepFirst(tok, t, true);
  }

  /** An EXTRACT among the arguments consumes everything up to their end. */
  lemma {:induction false} ExtractSwallows(
      src: string, f: ScalarFunction, extract: Token, t: seq<Token>, end: Token, tail: seq<Token>)
    requires extract.kind == Scalar(EXTRACT) && EndsArgs(end.kind)
    requires var r := FunctionLoop(src, EXTRACT, LexState([], t, true)); r.lex.queue == [end] && r.lex.rest == tail
    ensures FunctionLoop(src, f, LexState([], [extract] + t, true))
         == Out(ServerName(EXTRACT) + FunctionLoop(src, EXTRACT, LexState([], t, true)).text,
                LexState([end], tail, false))
  {
    StepFirst(extract, t, true);
    var inner := Arguments(src, EXTRACT, LexState([], t, true));
    assert inner.lex == LexState([end], tail, false);
    assert FunctionLoop(src, f, inner.lex) == Out("", inner.lex);
    assert inner.text + "" == inner.text;
  }

  // ---- No operand translates to the empty text, which would read as a failure

  lemma {:induction false} MeaningNotEmpty(src: string, op: OperandTree, emit: bool, next: Padded)
    requires src != "" && WellFormedOperand(op, emit, next) && !op.Missing?
    ensures MeaningOfOperand(src, op) != ""
  {
    if op.Braced? {
      EscapeNotEmpty(src, op.e);
    }
  }

  lemma {:induction false} EscapeNotEmpty(src: string, e: EscapeTree)
    requires src != "" && WellFormed(e) && !IsEmpty(e)
    ensures Meaning(src, e) != ""
  {
    if e.items.MoreItems? {
      ItemNotEmpty(src, e.items.key.tok.kind, e.items.item, NextOf(e.items.rest, e.close));
    }
  }

  lemma {:induction false} ItemNotEmpty(src: string, key: TokenType, item: ItemTree, next: Padded)
    requires src != ""
    requires if key == FN then WellFormedFunction(item, false, next) else WellFormedLiteral(item, false, next)
    ensures MeaningOfItem(src, key, item) != ""
  {
  }

  // ---- Whole sequences

  lemma {:induction false} SomethingRead(src: string)
    requires Lexable(src, 0) && TokensFrom(src, 0) != []
    ensures src != ""
  {
  }

  /** Correctness of the translation, over every text whose tokens spell a tree and any others behind it:
      those are lost. */
  lemma {:induction false} TranslationCorrect(src: string, e: EscapeTree, dropped: seq<Token>)
    requires Lexable(src, 0)
    requires WellFormed(e) && TokensFrom(src, 0) == SpellEscape(e, dropped)
    ensures RewriteSequence(src) == Meaning(src, e)
  {
    SomethingRead(src);
    TranslateEscape(src, e, dropped);
    StepFirst(e.open, SpellBehindOpen(e, dropped), false);
    PopQueued(e.open, SpellBehindOpen(e, dropped), false);
  }

  /** Correctness over the printed form: every well-formed tree whose tokens stay apart when they are
      written one behind the other is rewritten to its meaning. */
  lemma {:induction false} PrintedTreeTranslates(src: string, e: EscapeTree, dropped: seq<Token>)
    requires src == Flatten(SpellEscape(e, dropped))
    requires WellFormed(e) && Separated(SpellEscape(e, dropped)) && VERTICAL_TAB !in src
    ensures RewriteSequence(src) == Meaning(src, e)
  {
    ReadBack(src, SpellEscape(e, dropped));
    TranslationCorrect(src, e, dropped);
  }
}
