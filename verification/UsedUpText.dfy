/** Operands that use up the text: the call they belong to comes back as it stands, and with it all the
    calls around it. */
module UsedUpText {
  import opened Chars
  import opened FunctionDeclare
  import opened Tokens
  import opened Lexer
  import opened TokenNesting
  import opened EscapeSequences
  import opened EscapeTrees
  import opened EscapeTranslation
  import opened OpenCalls
  import EscapeProperties

  // ---- Operands behind which the text is used up

  /** Nothing is left, or one token that ends neither an operand nor a blank and starts no item. */
  predicate UsedUp(s: LexState) {
    || s.Size() == 0
    || (|s.queue| == 1 && s.rest == [] && s.queue[0].kind != SPACE && s.queue[0].kind != COMMA
        && s.queue[0].kind != RPARENT && !OpensItem(s.queue[0].kind))
  }

  /** At the end of the text every call yields the end of the text. */
  lemma {:induction false} Nothing(s: LexState)
    requires s.Size() == 0
    ensures s.Head().kind == EOS && s.Popped().Size() == 0
    ensures SkipSpaces(s).Size() == 0 && SkipSpaces(s).Head().kind == EOS
  {
    assert s.Head().kind != EOS ==> s.Popped().Size() < 0;
  }

  lemma {:induction false} UsedUpPopped(s: LexState)
    requires UsedUp(s)
    ensures s.Popped().Size() == 0 && UsedUp(SkipSpaces(s))
    ensures SkipSpaces(s).Head().kind != COMMA && SkipSpaces(s).Head().kind != RPARENT
  {
    if s.Size() == 0 {
      Nothing(s);
      Nothing(SkipSpaces(s));
    } else {
      assert s.Peeked() == s;
    }
  }

  /** There is no item any more, and at most a brace. */
  lemma {:induction false} NoItem(src: string, result: string, s: LexState)
    requires UsedUp(s) && (result == src || s.Size() == 0)
    ensures EscapeLoop(src, result, s).text == src && EscapeLoop(src, result, s).lex.Size() == 0
  {
    if s.Size() == 0 {
      Nothing(s);
    } else {
      assert SkipSpaces(s) == s;
    }
  }

  lemma {:induction false} NoOperandLeft(src: string, s: LexState)
    requires s.Size() == 0
    ensures IdentOrFunction(src, s).text == "" && IdentOrFunction(src, s).lex.Size() == 0
  {
    Nothing(s);
  }

  /** The function whose result is `r` leaves nothing to be read, and the sequence is given up. */
  predicate RunsOut(src: string, r: Out) {
    var e := EscapeLoop(src, r.text, r.lex);
    e.text == src && e.lex.Size() == 0
  }

  lemma {:induction false} AmountUsesUp(src: string, unit: TokenType, s: LexState)
    requires UsedUp(IdentOrFunction(src, s).lex)
    ensures RunsOut(src, AddedInterval(src, unit, s))
  {
    var amount := IdentOrFunction(src, s);
    UsedUpPopped(amount.lex);
    NoItem(src, src, amount.lex);
    NoItem(src, src, SkipSpaces(amount.lex));
  }

  lemma {:induction false} DateUsesUp(
      src: string, unit: TokenType, s: LexState, amount: string, comma: Token, s2: LexState)
    requires amount != "" && comma.kind == COMMA && s2.queue == []
    requires IdentOrFunction(src, s) == Out(amount, LexState([comma], s2.rest, s2.emit))
    requires UsedUp(IdentOrFunction(src, s2).lex)
    ensures RunsOut(src, AddedInterval(src, unit, s))
  {
    var date := IdentOrFunction(src, s2);
    PopQueued(comma, s2.rest, s2.emit);
    UsedUpPopped(date.lex);
    NoItem(src, src, date.lex);
    NoItem(src, src, SkipSpaces(date.lex));
  }

  lemma {:induction false} HaystackUsesUp(src: string, needle: string, haystack: Out)
    requires UsedUp(haystack.lex)
    ensures RunsOut(src, BehindHaystack(src, needle, haystack))
  {
    UsedUpPopped(haystack.lex);
    if haystack.text == "" {
      NoItem(src, src, haystack.lex);
    } else {
      NoOperandLeft(src, haystack.lex.Popped());
      var offset := IdentOrFunction(src, haystack.lex.Popped());
      Nothing(offset.lex);
      NoItem(src, PositionCall(haystack.text, needle), offset.lex.Popped());
    }
  }

  lemma {:induction false} NeedleUsesUp(src: string, needle: Out)
    requires UsedUp(needle.lex)
    ensures RunsOut(src, BehindNeedle(src, needle))
  {
    UsedUpPopped(needle.lex);
    if needle.text == "" {
      NoItem(src, src, needle.lex);
    } else {
      NoOperandLeft(src, needle.lex.Popped());
      NoItem(src, src, IdentOrFunction(src, needle.lex.Popped()).lex);
    }
  }

  lemma {:induction false} OffsetUsesUp(src: string, needle: string, haystack: Out)
    requires haystack.text != "" && UsedUp(IdentOrFunction(src, haystack.lex.Popped()).lex)
    ensures RunsOut(src, BehindHaystack(src, needle, haystack))
  {
    var offset := IdentOrFunction(src, haystack.lex.Popped());
    UsedUpPopped(offset.lex);
    NoItem(src, PositionCall(haystack.text, needle), offset.lex.Popped());
  }

  /** Whatever its place. */
  lemma {:induction false} OperandUsesUp(src: string, call: OpenCall, t: seq<Token>)
    requires src != "" && WellFormedCall(call)
    requires UsedUp(IdentOrFunction(src, LexState([], t, EmitAt(call.place))).lex)
    ensures RunsOut(src, Function(src, LexState([], SpellInside(call, t), false)))
  {
    match call.place
    case Amount(unit, comma1) =>
      AddIntervalHead(src, call.name, call.lparen, unit, comma1, t, false);
      AmountUsesUp(src, unit.tok.kind, LexState([], t, false));
    case Date(unit, comma1, amount, comma2) =>
      var t1 := SpellOperand(amount, SpellPadded(comma2, t));
      AddIntervalHead(src, call.name, call.lparen, unit, comma1, t1, false);
      TranslateOperand(src, amount, false, comma2, t);
      MeaningNotEmpty(src, amount, false, comma2);
      DateUsesUp(src, unit.tok.kind, LexState([], t1, false), MeaningOfOperand(src, amount), comma2.tok,
                 LexState([], t, Compound(amount)));
    case Param =>
      var param := IdentOrFunction(src, LexState([], t, false));
      LtrimOf(src, call.name, call.lparen, t, false, param);
      UsedUpPopped(param.lex);
      NoItem(src, src, param.lex);
      NoItem(src, TrimCall(param.text), param.lex.Popped());
    case _ =>
      LocateUsesUp(src, call, t);
  }

  lemma {:induction false} LocateUsesUp(src: string, call: OpenCall, t: seq<Token>)
    requires src != "" && WellFormedCall(call) && (call.place.Needle? || call.place.Haystack? || call.place.Offset?)
    requires UsedUp(IdentOrFunction(src, LexState([], t, EmitAt(call.place))).lex)
    ensures RunsOut(src, Function(src, LexState([], SpellInside(call, t), false)))
  {
    LocateOf(src, call.name, call.lparen, SpellPlace(call.place, t), false);
    match call.place
    case Needle =>
      NeedleUsesUp(src, IdentOrFunction(src, LexState([], t, false)));
    case Haystack(needle, skipped1) =>
      ReadOperand(src, needle, false, skipped1, t);
      HaystackUsesUp(src, MeaningOfOperand(src, needle), IdentOrFunction(src, LexState([], t, Compound(needle))));
    case Offset(needle, skipped1, haystack, skipped2) =>
      var t1 := SpellOperand(haystack, SpellPadded(skipped2, t));
      ReadOperand(src, needle, false, skipped1, t1);
      ReadOperand(src, haystack, Compound(needle), skipped2, t);
      OffsetUsesUp(src, MeaningOfOperand(src, needle), IdentOrFunction(src, LexState([], t1, Compound(needle))));
  }

  // ---- Calls inside calls

  /** An escape from the tokens `ts` uses them up and is given up. */
  predicate UsesUp(src: string, ts: seq<Token>) {
    && ts != [] && ts[0].kind == LCURLY
    && var e := Escape(src, LexState([], ts, false));
       e.text == src && e.lex.Size() == 0
  }

  lemma {:induction false} EscapeOf(src: string, open: Token, key: Padded, inside: seq<Token>)
    requires open.kind == LCURLY && Blanks(key.gap) && key.tok.kind == FN
    ensures var r := Function(src, LexState([], inside, false));
            Escape(src, LexState([], [open] + SpellPadded(key, inside), false)) == EscapeLoop(src, r.text, r.lex)
  {
    var s := LexState([], SpellPadded(key, inside), false);
    StepFirst(open, s.rest, false);
    var s1 := LexState([], inside, false);
    FirstItem(src, key, s1, "", s, Item(src, FN, s1));
    assert "" + Function(src, s1).text == Function(src, s1).text;
  }

  /** An argument that uses the text up ends the arguments. */
  lemma {:induction false} ArgumentUsesUp(src: string, f: ScalarFunction, ts: seq<Token>)
    requires UsesUp(src, ts)
    ensures FunctionLoop(src, f, LexState([], ts, true)).lex.Size() == 0
  {
    assert ts == [ts[0]] + ts[1..];
    StepFirst(ts[0], ts[1..], true);
    StepFirst(ts[0], ts[1..], false);
    PopQueued(ts[0], ts[1..], false);
    assert Escape(src, LexState([ts[0]], ts[1..], false)) == Escape(src, LexState([], ts, false));
  }

  lemma {:induction false} TokenInFront(
      src: string, f: ScalarFunction, g: ScalarFunction, tok: Token, t: seq<Token>)
    requires tok.kind != RCURLY && tok.kind != LCURLY && tok.kind != EOS && tok.kind != INVALID
    requires g == if tok.kind == Scalar(EXTRACT) then EXTRACT else f
    requires FunctionLoop(src, g, LexState([], t, true)).lex.Size() == 0
    ensures FunctionLoop(src, f, LexState([], [tok] + t, true)).lex.Size() == 0
  {
    StepFirst(tok, t, true);
  }

  lemma {:induction false} ArgumentsUseUp(
      src: string, f: ScalarFunction, front: Args, ts: seq<Token>, all: seq<Token>)
    requires src != "" && WellFormedArgs(front) && UsesUp(src, ts) && all == SpellArgs(front, ts)
    ensures FunctionLoop(src, f, LexState([], all, true)).lex.Size() == 0
    decreases front
  {
    match front
    case NoArgs =>
      ArgumentUsesUp(src, f, ts);
    case ArgToken(tok, rest) =>
      var g, t := if tok.kind == Scalar(EXTRACT) then EXTRACT else f, SpellArgs(rest, ts);
      ArgumentsUseUp(src, g, rest, ts, t);
      TokenInFront(src, f, g, tok, t);
    case ArgEscape(e, rest) =>
      var t := SpellArgs(rest, ts);
      ArgumentsUseUp(src, f, rest, ts, t);
      EscapeInFront(src, f, e, t);
  }

  lemma {:induction false} EscapeInFront(src: string, f: ScalarFunction, e: EscapeTree, t: seq<Token>)
    requires src != "" && WellFormed(e) && FunctionLoop(src, f, LexState([], t, true)).lex.Size() == 0
    ensures FunctionLoop(src, f, LexState([], SpellEscape(e, t), true)).lex.Size() == 0
  {
    TranslateEscape(src, e, t);
    NestedInArguments(src, f, e, t);
  }

  /** So does the call they belong to, at any depth. */
  lemma {:induction false} ContextUsesUp(src: string, context: Context, ts: seq<Token>)
    requires src != "" && WellFormedContext(context) && UsesUp(src, ts)
    ensures UsesUp(src, SpellContext(context, ts))
    decreases context
  {
    match context
    case Whole =>
    case Inside(open, key, name, front, inner) =>
      var t := SpellContext(inner, ts);
      ContextUsesUp(src, inner, ts);
      ArgumentsUseUp(src, name.tok.kind.f, front, t, SpellArgs(front, t));
      CallHead(src, name, SpellArgs(front, t), false);
      EscapeOf(src, open, key, SpellPadded(name, SpellArgs(front, t)));
      var r := Function(src, LexState([], SpellPadded(name, SpellArgs(front, t)), false));
      NoItem(src, r.text, r.lex);
  }

  /** A call in which reading an operand uses the text up comes back as it stands, and with it all the
      calls around it. */
  lemma {:induction false} UsedUpStays(src: string, context: Context, call: OpenCall, t: seq<Token>)
    requires StartsIn(src, context, call, t)
    requires UsedUp(IdentOrFunction(src, LexState([], t, EmitAt(call.place))).lex)
    ensures RewriteSequence(src) == src
  {
    ContextNotEmpty(context, SpellCall(call, t));
    SomethingRead(src);
    OperandUsesUp(src, call, t);
    EscapeOf(src, call.open, call.key, SpellInside(call, t));
    ContextUsesUp(src, context, SpellCall(call, t));
  }

  lemma {:induction false} ContextNotEmpty(context: Context, t: seq<Token>)
    requires t != []
    ensures SpellContext(context, t) != []
  {
  }

  // ---- A scalar function's name that no parenthesis follows

  /** The name of a scalar function as an operand: the token behind it, `over`, is taken for the opening
      parenthesis, and everything through the next unmatched closing one is read.  If that is the one
      that closes the call, the call is not translated.  A blank in front of the name's own parenthesis
      is such a token, too. */
  lemma {:induction false} WordStays(
      src: string, context: Context, call: OpenCall, word: Padded, over: Token, body: Body, close: Padded)
    requires StartsIn(src, context, call, SpellPadded(word, [over] + SpellBody(body, SpellPadded(close, []))))
    requires Blanks(word.gap) && word.tok.kind.Scalar? && WellFormedBody(body)
    requires Blanks(close.gap) && close.tok.kind == RCURLY
    ensures RewriteSequence(src) == src
  {
    ContextNotEmpty(context, SpellCall(call, SpellPadded(word, [over] + SpellBody(body, SpellPadded(close, [])))));
    SomethingRead(src);
    ReadToBrace(src, word, over, body, close, EmitAt(call.place));
    UsedUpStays(src, context, call, SpellPadded(word, [over] + SpellBody(body, SpellPadded(close, []))));
  }

  lemma {:induction false} ReadToBrace(
      src: string, word: Padded, over: Token, body: Body, close: Padded, emit: bool)
    requires src != "" && Blanks(word.gap) && word.tok.kind.Scalar? && WellFormedBody(body)
    requires Blanks(close.gap) && close.tok.kind == RCURLY
    ensures var t := SpellPadded(word, [over] + SpellBody(body, SpellPadded(close, [])));
            UsedUp(IdentOrFunction(src, LexState([], t, emit)).lex)
  {
    TranslateOperand(src, ScalarCall(word, over, body), emit, close, []);
  }

  /** If it is the call's own closing parenthesis that is taken for the opening one, no closing one is
      left, and everything to the end of the text is read. */
  lemma {:induction false} LastWordStays(
      src: string, context: Context, call: OpenCall, word: Padded, over: Token, rest: seq<Token>)
    requires StartsIn(src, context, call, SpellPadded(word, [over] + rest))
    requires Blanks(word.gap) && word.tok.kind.Scalar?
    requires Closing(rest, 1) == 0 && EscapeProperties.Plain(rest, |rest|)
    ensures RewriteSequence(src) == src
  {
    ReadToEnd(src, word, over, rest, EmitAt(call.place));
    UsedUpStays(src, context, call, SpellPadded(word, [over] + rest));
  }

  lemma {:induction false} ReadToEnd(src: string, word: Padded, over: Token, rest: seq<Token>, emit: bool)
    requires Blanks(word.gap) && word.tok.kind.Scalar?
    requires Closing(rest, 1) == 0 && EscapeProperties.Plain(rest, |rest|)
    ensures UsedUp(IdentOrFunction(src, LexState([], SpellPadded(word, [over] + rest), emit)).lex)
  {
    Skip(LexState([], SpellPadded(word, [over] + rest), emit), word, [over] + rest);
    ScalarOperand(src, word.tok, over, rest, emit);
    EscapeProperties.ParenthesesRunOut(src, over, rest, emit);
  }

  // ---- LOCATE without an offset

  lemma {:induction false} WholeIn(src: string, call: OpenCall, t: seq<Token>)
    requires Starts(src, call, t)
    ensures StartsIn(src, Whole, call, t)
  {
  }

  lemma {:induction false} BraceReadLast(src: string, close: Padded, emit: bool)
    requires Blanks(close.gap) && close.tok.kind == RCURLY
    ensures UsedUp(IdentOrFunction(src, LexState([], SpellPadded(close, []), emit)).lex)
  {
    OperandMissing(src, emit, close, []);
  }

  /** LOCATE with two operands, as the standard allows, is not translated if nothing is behind it: the
      closing brace is consumed as the token behind the third. */
  lemma {:induction false} LocateWithoutOffsetStays(src: string, call: OpenCall, close: Padded)
    requires Starts(src, call, SpellPadded(close, [])) && call.place.Offset? && call.place.skipped2.tok.kind == RPARENT
    requires Blanks(close.gap) && close.tok.kind == RCURLY
    ensures RewriteSequence(src) == src
  {
    BraceReadLast(src, close, EmitAt(call.place));
    WholeIn(src, call, SpellPadded(close, []));
    UsedUpStays(src, Whole, call, SpellPadded(close, []));
  }
}
