/** Operands that a call of TIMESTAMPADD, LTRIM or LOCATE reads in vain, in every place where one is read:
    the call is given up at some token.

    If the call is the whole sequence, that comes back as it stands.  What such a call does inside another
    escape is in `NestedFailures`. */
module OperandFailures {
  import opened Chars
  import opened FunctionDeclare
  import opened Tokens
  import opened Lexer
  import opened EscapeSequences
  import opened EscapeTrees
  import opened EscapeTranslation
  import opened OpenCalls

  // ---- Calls that are given up at a token

  /** The rewriter writes the whole sequence for this escape. */
  predicate IsGivenUp(e: EscapeTree) {
    e.close.tok.kind != RCURLY || (e.items.MoreItems? && e.items.item.GivenUp? && e.items.rest.NoItems?)
  }

  lemma {:induction false} OneGivenUp(src: string, items: Items)
    requires items.MoreItems? && items.item.GivenUp? && items.rest.NoItems?
    ensures MeaningOfItems(src, items) == src
  {
    assert MeaningOfItem(src, items.key.tok.kind, items.item) == src;
    assert MeaningOfItems(src, items.rest) == "";
    assert src + "" == src;
  }

  lemma {:induction false} GivenUpMeaning(src: string, e: EscapeTree)
    requires IsGivenUp(e)
    ensures Meaning(src, e) == src
  {
    if e.close.tok.kind == RCURLY {
      OneGivenUp(src, e.items);
    }
  }

  /** The call and `t` are the tokens of `e`, which is given up, and `left`, which are left to what
      surrounds the call. */
  predicate GivenUpAs(e: EscapeTree, call: OpenCall, t: seq<Token>, left: seq<Token>) {
    WellFormed(e) && IsGivenUp(e) && SpellEscape(e, left) == SpellCall(call, t)
  }

  /** If the call is the whole sequence, it comes back as it stands. */
  lemma {:induction false} GivenUpStays(src: string, call: OpenCall, t: seq<Token>, e: EscapeTree, left: seq<Token>)
    requires Starts(src, call, t) && GivenUpAs(e, call, t, left)
    ensures RewriteSequence(src) == src
  {
    TranslationCorrect(src, e, left);
    GivenUpMeaning(src, e);
  }

  /** An item and the token at which the rewriter stops. */
  predicate StopsEscape(stop: Padded) {
    Blanks(stop.gap) && stop.tok.kind != SPACE && stop.tok.kind != RCURLY && !OpensItem(stop.tok.kind)
  }

  function Single(call: OpenCall, item: ItemTree, stop: Padded): EscapeTree {
    EscapeTree(call.open, MoreItems(call.key, item, NoItems), stop)
  }

  lemma {:induction false} OneItemTree(call: OpenCall, t: seq<Token>, item: ItemTree, stop: Padded, left: seq<Token>)
    requires WellFormedCall(call) && WellFormedFunction(item, false, stop)
    requires SpellInside(call, t) == SpellItem(item, SpellPadded(stop, left))
    requires StopsEscape(stop) || (stop.tok.kind == RCURLY && Blanks(stop.gap) && item.GivenUp?)
    ensures GivenUpAs(Single(call, item, stop), call, t, left)
  {
    SpellSingle(call, t, item, stop, left);
    WellFormedSingle(call.open, call.key, item, stop);
  }

  lemma {:induction false} SpellSingle(
      call: OpenCall, t: seq<Token>, item: ItemTree, stop: Padded, left: seq<Token>)
    requires SpellInside(call, t) == SpellItem(item, SpellPadded(stop, left))
    ensures SpellEscape(Single(call, item, stop), left) == SpellCall(call, t)
  {
    assert SpellItems(NoItems, SpellPadded(stop, left)) == SpellPadded(stop, left);
  }

  lemma {:induction false} WellFormedSingle(open: Token, key: Padded, item: ItemTree, stop: Padded)
    requires open.kind == LCURLY && Blanks(key.gap) && key.tok.kind == FN && WellFormedFunction(item, false, stop)
    requires Blanks(stop.gap) && stop.tok.kind != SPACE && !OpensItem(stop.tok.kind)
    ensures WellFormed(EscapeTree(open, MoreItems(key, item, NoItems), stop))
  {
    assert WellFormedItems(NoItems, EmitBehind(item, false), stop);
  }

  // ---- An operand that is read, and a wrong token behind it

  /** What a call reads in vain: an operand and two tokens behind it; or between those two, since LOCATE
      consumes the first whatever it is, a further operand. */
  datatype Reading =
    | Plain(op: OperandTree, next: Padded, behind: Padded)
    | Further(op: OperandTree, next: Padded, more: OperandTree, behind: Padded, stop: Padded)

  function SpellReading(r: Reading, tail: seq<Token>): seq<Token> {
    SpellOperand(r.op, SpellPadded(r.next,
      match r
      case Plain(_, _, behind) => SpellPadded(behind, tail)
      case Further(_, _, more, behind, stop) => SpellOperand(more, SpellPadded(behind, SpellPadded(stop, tail)))))
  }

  /** The operand is well-formed, but the call does not go on behind it as it should: what the rewriter
      takes for the end of the call is no brace. */
  predicate InVain(place: Place, r: Reading) {
    && WellFormedOperand(r.op, EmitAt(place), r.next) && (r.op.Missing? ==> place.Offset?)
    && (r.Further? <==> place.Haystack?)
    && match place
       case Amount(_, _) => r.next.tok.kind != COMMA && !OpensItem(r.next.tok.kind)
       case Date(_, _, _, _) => r.next.tok.kind != RPARENT && !OpensItem(r.next.tok.kind)
       case Param => StopsEscape(r.behind)
       case Needle => StopsEscape(r.behind) && !OpensOperand(r.behind.tok.kind)
       case Haystack(_, _) =>
         WellFormedOperand(r.more, EmitAt(place) || Compound(r.op), r.behind) && StopsEscape(r.stop)
       case Offset(_, _, _, _) => StopsEscape(r.behind)
  }

  function ReadItem(call: OpenCall, r: Reading): ItemTree
    requires r.Further? <==> call.place.Haystack?
  {
    match call.place
    case Amount(unit, comma1) => GivenUp(NoSecondComma(call.name, call.lparen, unit, comma1, r.op))
    case Date(unit, comma1, amount, comma2) =>
      GivenUp(NoEnd(call.name, call.lparen, unit, comma1, amount, comma2, r.op))
    case Param => LtrimCall(call.name, call.lparen, r.op, r.next)
    case Needle => GivenUp(NoHaystack(call.name, call.lparen, r.op, r.next))
    case Haystack(needle, skipped1) =>
      LocateCall(call.name, call.lparen, needle, skipped1, r.op, r.next, r.more, r.behind)
    case Offset(needle, skipped1, haystack, skipped2) =>
      LocateCall(call.name, call.lparen, needle, skipped1, haystack, skipped2, r.op, r.next)
  }

  /** The token at which the call is given up. */
  function ReadStop(place: Place, r: Reading): Padded {
    if place.Amount? || place.Date? then r.next else if r.Further? then r.stop else r.behind
  }

  /** What follows it. */
  function ReadLeft(place: Place, r: Reading, tail: seq<Token>): seq<Token> {
    if (place.Amount? || place.Date?) && r.Plain? then SpellPadded(r.behind, tail) else tail
  }

  lemma {:induction false} ReadSpelled(call: OpenCall, r: Reading, tail: seq<Token>)
    requires r.Further? <==> call.place.Haystack?
    ensures SpellInside(call, SpellReading(r, tail))
         == SpellItem(ReadItem(call, r), SpellPadded(ReadStop(call.place, r), ReadLeft(call.place, r, tail)))
  {
    var item := ReadItem(call, r);
    var left := SpellPadded(ReadStop(call.place, r), ReadLeft(call.place, r, tail));
    assert item.GivenUp? ==> SpellItem(item, left) == SpellPartial(item.call, left);
  }

  lemma {:induction false} ReadInterval(call: OpenCall, r: Reading)
    requires WellFormedCall(call) && InVain(call.place, r) && (call.place.Amount? || call.place.Date?)
    ensures WellFormedFunction(ReadItem(call, r), false, r.next)
  {
    assert Fails(ReadItem(call, r).call, false, r.next);
  }

  lemma {:induction false} ReadLocate(call: OpenCall, r: Reading)
    requires WellFormedCall(call) && InVain(call.place, r) && !call.place.Amount? && !call.place.Date?
    ensures WellFormedFunction(ReadItem(call, r), false, ReadStop(call.place, r))
  {
  }

  /** Such a call is given up, wherever it stands. */
  lemma {:induction false} InVainGivenUp(call: OpenCall, r: Reading, tail: seq<Token>) returns (e: EscapeTree)
    requires WellFormedCall(call) && InVain(call.place, r)
    ensures GivenUpAs(e, call, SpellReading(r, tail), ReadLeft(call.place, r, tail))
  {
    var item, stop := ReadItem(call, r), ReadStop(call.place, r);
    ReadSpelled(call, r, tail);
    if call.place.Amount? || call.place.Date? {
      ReadInterval(call, r);
    } else {
      ReadLocate(call, r);
    }
    OneItemTree(call, SpellReading(r, tail), item, stop, ReadLeft(call.place, r, tail));
    e := Single(call, item, stop);
  }

  /** If it is the whole sequence, that comes back as it stands. */
  lemma {:induction false} InVainStays(src: string, call: OpenCall, r: Reading, tail: seq<Token>)
    requires Starts(src, call, SpellReading(r, tail)) && InVain(call.place, r)
    ensures RewriteSequence(src) == src
  {
    var e := InVainGivenUp(call, r, tail);
    GivenUpStays(src, call, SpellReading(r, tail), e, ReadLeft(call.place, r, tail));
  }

  // ---- CURRENT_TIMESTAMP, and a blank in front of a parenthesis

  /** The tokens of a bare CURRENT_TIMESTAMP and two more. */
  lemma {:induction false} TimestampReading(
      place: Place, now: Padded, behind: Padded, stop: Padded, tail: seq<Token>) returns (r: Reading, left: seq<Token>)
    requires Blanks(now.gap) && now.tok.kind == Tokens.CURRENT_TIMESTAMP
    requires Blanks(behind.gap) && (behind.tok.kind == COMMA || behind.tok.kind == RPARENT)
    requires place.Haystack? ==> StopsEscape(stop)
    ensures InVain(place, r)
    ensures SpellReading(r, left) == SpellPadded(now, SpellPadded(behind, SpellPadded(stop, tail)))
  {
    var t := SpellPadded(behind, SpellPadded(stop, tail));
    assert SpellOperand(Missing, t) == t && SpellOperand(Now, SpellPadded(now, t)) == SpellPadded(now, t);
    if place.Haystack? {
      r, left := Further(Now, now, Missing, behind, stop), tail;
    } else {
      r, left := Plain(Now, now, behind), SpellPadded(stop, tail);
    }
  }

  /** A bare CURRENT_TIMESTAMP is accepted as an operand, but its token is not consumed, so that what is
      to follow the operand is not found there: the call is not translated. */
  lemma {:induction false} TimestampOperandStays(
      src: string, call: OpenCall, now: Padded, behind: Padded, stop: Padded, tail: seq<Token>)
    requires Starts(src, call, SpellPadded(now, SpellPadded(behind, SpellPadded(stop, tail))))
    requires Blanks(now.gap) && now.tok.kind == Tokens.CURRENT_TIMESTAMP
    requires Blanks(behind.gap) && (behind.tok.kind == COMMA || behind.tok.kind == RPARENT)
    requires call.place.Haystack? ==> StopsEscape(stop)
    ensures RewriteSequence(src) == src
  {
    var r, left := TimestampReading(call.place, now, behind, stop, tail);
    InVainStays(src, call, r, left);
  }

  /** A name, a parenthesis kept apart by a blank, what is read as an operand behind it, and two tokens. */
  function Apart(name: Padded, lparen: Padded, op: OperandTree, behind: Padded, t: seq<Token>): seq<Token> {
    SpellPadded(name, SpellPadded(lparen, SpellOperand(op, SpellPadded(behind, t))))
  }

  lemma {:induction false} ApartReading(
      place: Place, name: Padded, lparen: Padded, op: OperandTree, behind: Padded, stop: Padded, tail: seq<Token>)
    returns (r: Reading, left: seq<Token>)
    requires EmitAt(place) && Blanks(name.gap) && name.tok.kind == IDENT && name.tok.literal != ""
    requires Blanks(lparen.gap) && lparen.gap != [] && lparen.tok.kind == LPARENT
    requires WellFormedOperand(op, true, behind) && (behind.tok.kind == COMMA || behind.tok.kind == RPARENT)
    requires StopsEscape(stop)
    ensures InVain(place, r)
    ensures SpellReading(r, left) == Apart(name, lparen, op, behind, SpellPadded(stop, tail))
  {
    var t := SpellPadded(behind, SpellPadded(stop, tail));
    NameAlone(name, lparen, SpellOperand(op, t));
    if place.Haystack? {
      r, left := Further(Simple(name), lparen, op, behind, stop), tail;
    } else if op.Now? || op.Missing? {
      r, left := Plain(Simple(name), lparen, behind), SpellPadded(stop, tail);
    } else {
      r, left := Plain(Simple(name), lparen, FirstTokenOf(op)), AfterFirst(op, t);
      SpellFirst(op, t);
      FirstStarts(op, true, behind);
    }
  }

  lemma {:induction false} NameAlone(name: Padded, lparen: Padded, t: seq<Token>)
    requires Blanks(name.gap) && name.tok.kind == IDENT && name.tok.literal != ""
    requires Blanks(lparen.gap) && lparen.gap != [] && lparen.tok.kind == LPARENT
    ensures WellFormedOperand(Simple(name), true, lparen)
    ensures SpellOperand(Simple(name), SpellPadded(lparen, t)) == SpellPadded(name, SpellPadded(lparen, t))
  {
  }

  /** Once an operand of a call has switched blanks on, a name is an operand by itself if a blank stands in
      front of its parenthesis.  The parenthesis is then where a comma or the end should be, and the call
      is not translated, be there anything in it or not. */
  lemma {:induction false} NameBeforeBlankStays(
      src: string, call: OpenCall, name: Padded, lparen: Padded, op: OperandTree, behind: Padded, stop: Padded,
      tail: seq<Token>)
    requires Starts(src, call, Apart(name, lparen, op, behind, SpellPadded(stop, tail)))
    requires EmitAt(call.place) && Blanks(name.gap) && name.tok.kind == IDENT && name.tok.literal != ""
    requires Blanks(lparen.gap) && lparen.gap != [] && lparen.tok.kind == LPARENT
    requires WellFormedOperand(op, true, behind) && (behind.tok.kind == COMMA || behind.tok.kind == RPARENT)
    requires StopsEscape(stop)
    ensures RewriteSequence(src) == src
  {
    var r, left := ApartReading(call.place, name, lparen, op, behind, stop, tail);
    InVainStays(src, call, r, left);
  }

  // ---- A word that starts no operand

  /** The item in front of such a word. */
  function BeforeWord(call: OpenCall): ItemTree
    requires !call.place.Offset?
  {
    match call.place
    case Amount(unit, comma1) => GivenUp(NoSecondComma(call.name, call.lparen, unit, comma1, Missing))
    case Date(unit, comma1, amount, comma2) =>
      GivenUp(NoEnd(call.name, call.lparen, unit, comma1, amount, comma2, Missing))
    case Haystack(needle, skipped1) => GivenUp(NoHaystack(call.name, call.lparen, needle, skipped1))
    case _ => GivenUp(NoOperand(call.name, call.lparen))
  }

  lemma {:induction false} WordSpelled(call: OpenCall, t: seq<Token>)
    requires !call.place.Offset?
    ensures SpellInside(call, t) == SpellItem(BeforeWord(call), t)
  {
    assert SpellOperand(Missing, t) == t;
    assert SpellItem(BeforeWord(call), t) == SpellPartial(BeforeWord(call).call, t);
  }

  /** A word that is neither a name nor the name of a scalar function is no operand. */
  predicate NoOperandWord(word: Padded) {
    Blanks(word.gap) && word.tok.kind != SPACE && !OpensOperand(word.tok.kind)
  }

  lemma {:induction false} WordItem(call: OpenCall, word: Padded)
    requires WellFormedCall(call) && !call.place.Offset? && NoOperandWord(word)
    ensures WellFormedFunction(BeforeWord(call), false, word)
    ensures EmitBehind(BeforeWord(call), false) == EmitAt(call.place)
  {
    if call.place.Amount? || call.place.Date? {
      WordInInterval(call, word);
    }
  }

  lemma {:induction false} WordInInterval(call: OpenCall, word: Padded)
    requires WellFormedCall(call) && (call.place.Amount? || call.place.Date?) && NoOperandWord(word)
    ensures WellFormedFunction(BeforeWord(call), false, word)
    ensures EmitBehind(BeforeWord(call), false) == EmitAt(call.place)
  {
    assert WellFormedOperand(Missing, EmitAt(call.place), word);
    assert Fails(BeforeWord(call).call, false, word);
  }

  /** With the word as the next keyword, and what belongs to it. */
  function TwoItems(call: OpenCall, word: Padded, item: ItemTree, stop: Padded): EscapeTree
    requires !call.place.Offset?
  {
    EscapeTree(call.open, MoreItems(call.key, BeforeWord(call), MoreItems(word, item, NoItems)), stop)
  }

  lemma {:induction false} TwoItemsTree(call: OpenCall, word: Padded, item: ItemTree, stop: Padded, left: seq<Token>)
    requires WellFormedCall(call) && !call.place.Offset? && NoOperandWord(word) && OpensItem(word.tok.kind)
    requires if word.tok.kind == FN then WellFormedFunction(item, EmitAt(call.place), stop)
             else WellFormedLiteral(item, EmitAt(call.place), stop)
    requires Blanks(stop.gap) && stop.tok.kind != SPACE && !OpensItem(stop.tok.kind)
    ensures WellFormed(TwoItems(call, word, item, stop))
    ensures SpellEscape(TwoItems(call, word, item, stop), left)
         == SpellCall(call, SpellPadded(word, SpellItem(item, SpellPadded(stop, left))))
  {
    var t := SpellPadded(stop, left);
    var second := MoreItems(word, item, NoItems);
    WordItem(call, word);
    WordSpelled(call, SpellPadded(word, SpellItem(item, t)));
    assert SpellItems(NoItems, t) == t;
    assert SpellItems(second, t) == SpellPadded(word, SpellItem(item, t));
    assert WellFormedItems(NoItems, EmitBehind(item, EmitAt(call.place)), stop);
    assert WellFormedItems(second, EmitAt(call.place), stop);
  }

  /** A unit, one of the keywords D, T and TS, or the name of a function that needs braces is no operand:
      the call is given up there, wherever it stands. */
  lemma {:induction false} WordGivenUp(call: OpenCall, word: Padded, behind: Padded, tail: seq<Token>)
    returns (e: EscapeTree, left: seq<Token>)
    requires WellFormedCall(call) && NoOperandWord(word) && word.tok.kind != RCURLY && word.tok.kind != FN
    requires StopsEscape(behind) && behind.tok.kind != STRING
    ensures GivenUpAs(e, call, SpellPadded(word, SpellPadded(behind, tail)), left)
  {
    var t := SpellPadded(behind, tail);
    if call.place.Offset? {
      e, left := OffsetWordGivenUp(call, word, behind, tail);
    } else if OpensItem(word.tok.kind) {
      e, left := TwoItems(call, word, GivenUp(NoLiteral), behind), tail;
      TwoItemsTree(call, word, GivenUp(NoLiteral), behind, tail);
      assert SpellItem(GivenUp(NoLiteral), t) == t;
    } else {
      e, left := Single(call, BeforeWord(call), word), t;
      WordItem(call, word);
      WordSpelled(call, SpellPadded(word, t));
      OneItemTree(call, SpellPadded(word, t), BeforeWord(call), word, t);
    }
  }

  lemma {:induction false} OffsetWordGivenUp(call: OpenCall, word: Padded, behind: Padded, tail: seq<Token>)
    returns (e: EscapeTree, left: seq<Token>)
    requires WellFormedCall(call) && call.place.Offset? && NoOperandWord(word) && StopsEscape(behind)
    ensures GivenUpAs(e, call, SpellPadded(word, SpellPadded(behind, tail)), left)
  {
    MissingReading(call.place, word, behind, tail);
    e := InVainGivenUp(call, Plain(Missing, word, behind), tail);
    left := tail;
  }

  lemma {:induction false} MissingReading(place: Place, word: Padded, behind: Padded, tail: seq<Token>)
    requires place.Offset? && NoOperandWord(word) && StopsEscape(behind)
    ensures InVain(place, Plain(Missing, word, behind))
    ensures SpellReading(Plain(Missing, word, behind), tail) == SpellPadded(word, SpellPadded(behind, tail))
  {
    var t := SpellPadded(word, SpellPadded(behind, tail));
    assert SpellOperand(Missing, t) == t;
  }

  /** If the call is the whole sequence, that comes back as it stands. */
  lemma {:induction false} WordNoOperandStays(
      src: string, call: OpenCall, word: Padded, behind: Padded, tail: seq<Token>)
    requires Starts(src, call, SpellPadded(word, SpellPadded(behind, tail)))
    requires NoOperandWord(word) && word.tok.kind != RCURLY && word.tok.kind != FN
    requires StopsEscape(behind) && behind.tok.kind != STRING
    ensures RewriteSequence(src) == src
  {
    var e, left := WordGivenUp(call, word, behind, tail);
    GivenUpStays(src, call, SpellPadded(word, SpellPadded(behind, tail)), e, left);
  }

  /** FN as such a word starts another item: the sequence is written a second time. */
  lemma {:induction false} FnDoubles(
      src: string, call: OpenCall, fn: Padded, behind: Padded, close: Padded, tail: seq<Token>)
    requires Starts(src, call, SpellPadded(fn, SpellPadded(behind, SpellPadded(close, tail))))
    requires !call.place.Offset? && Blanks(fn.gap) && fn.tok.kind == FN
    requires Reads(behind, EmitAt(call.place)) && NameUnknown(behind.tok.kind)
    requires Blanks(close.gap) && close.tok.kind == RCURLY
    ensures RewriteSequence(src) == src + src
  {
    var item := GivenUp(NoFunction(behind));
    TwoItemsTree(call, fn, item, close, tail);
    assert SpellItem(item, SpellPadded(close, tail)) == SpellPadded(behind, SpellPadded(close, tail));
    TranslationCorrect(src, TwoItems(call, fn, item, close), tail);
    Twice(src, call, fn, item, close);
  }

  lemma {:induction false} Twice(src: string, call: OpenCall, fn: Padded, item: ItemTree, close: Padded)
    requires !call.place.Offset? && item.GivenUp? && close.tok.kind == RCURLY
    ensures Meaning(src, TwoItems(call, fn, item, close)) == src + src
  {
    var second := MoreItems(fn, item, NoItems);
    OneGivenUp(src, second);
    assert MeaningOfItem(src, call.key.tok.kind, BeforeWord(call)) == src;
    assert MeaningOfItems(src, MoreItems(call.key, BeforeWord(call), second)) == src + src;
  }
}
