/** Escape sequences as trees, and what each tree is rewritten to.

    A tree is spelled as a token sequence.  `Padded` is a token with the blanks in front of it; the
    spelling functions take the tokens that follow, `tail`, as an argument.  A tree may hold calls that
    the rewriter gives up on: what such a call is spelled as ends in front of the token that shows the
    failure. */
module EscapeTrees {
  import opened Chars
  import opened FunctionDeclare
  import opened Tokens
  import opened Lexer
  import opened EscapeSequences

  datatype Padded = Padded(gap: seq<Token>, tok: Token)

  /** One `{...}`.  `close` is the brace, or the token at which the rewriter gives the escape up. */
  datatype EscapeTree = EscapeTree(open: Token, items: Items, close: Padded)

  /** Keywords, each with what belongs to it. */
  datatype Items = NoItems | MoreItems(key: Padded, item: ItemTree, rest: Items)

  datatype ItemTree =
    | Call(name: Padded, args: Args)
    | AddInterval(name: Padded, lparen: Padded, unit: Padded, comma1: Padded, amount: OperandTree,
                  comma2: Padded, date: OperandTree, rparen: Padded)
    | LocateCall(name: Padded, lparen: Padded, needle: OperandTree, skipped1: Padded,
                 haystack: OperandTree, skipped2: Padded, offset: OperandTree, skipped3: Padded)
    | LtrimCall(name: Padded, lparen: Padded, param: OperandTree, skipped: Padded)
    | CurrentTimestamp(name: Padded)
    | CurrentTimestampOf(name: Padded, lparen: Padded, body: Body)
    | Literal(lit: Padded)
    | GivenUp(call: Partial)

  /** What is read before the token that shows that a call cannot be translated. */
  datatype Partial =
    | NoLiteral
    | NoFunction(name: Padded)
    | NoParenthesis(name: Padded)
    | NoUnit(name: Padded, lparen: Padded, unit: Padded)
    | NoComma(name: Padded, lparen: Padded, unit: Padded)
    | NoSecondComma(name: Padded, lparen: Padded, unit: Padded, comma1: Padded, amount: OperandTree)
    | NoEnd(name: Padded, lparen: Padded, unit: Padded, comma1: Padded, amount: OperandTree,
            comma2: Padded, date: OperandTree)
    | NoOperand(name: Padded, lparen: Padded)
    | NoHaystack(name: Padded, lparen: Padded, needle: OperandTree, skipped1: Padded)

  /** The arguments of a `Call`: any tokens but braces, and nested escapes. */
  datatype Args = NoArgs | ArgToken(tok: Token, rest: Args) | ArgEscape(e: EscapeTree, rest: Args)

  /** What follows an opening parenthesis, its closing one included. */
  datatype Body =
    | Close(tok: Token)
    | BodyToken(tok: Token, rest: Body)
    | BodyGroup(open: Token, inner: Body, rest: Body)
    | BodyEscape(e: EscapeTree, rest: Body)

  /** An operand of TIMESTAMPADD, LOCATE or LTRIM.  Behind a scalar function's name the source takes the
      next token for its parenthesis, whatever it is.  A bare CURRENT_TIMESTAMP is accepted without
      being consumed, so `Now` is spelled as nothing, and so is `Missing`, where no operand starts. */
  datatype OperandTree =
    | Simple(lit: Padded)
    | Group(lparen: Padded, body: Body)
    | Named(name: Padded, lparen: Padded, body: Body)
    | ScalarCall(name: Padded, open: Token, body: Body)
    | Braced(gap: seq<Token>, e: EscapeTree)
    | Now
    | Missing

  // ---- Spelling

  function SpellPadded(p: Padded, tail: seq<Token>): seq<Token> {
    p.gap + ([p.tok] + tail)
  }

  function SpellEscape(e: EscapeTree, tail: seq<Token>): seq<Token>
    decreases e
  {
    [e.open] + SpellItems(e.items, SpellPadded(e.close, tail))
  }

  function SpellItems(items: Items, tail: seq<Token>): seq<Token>
    decreases items
  {
    match items
    case NoItems => tail
    case MoreItems(key, item, rest) => SpellPadded(key, SpellItem(item, SpellItems(rest, tail)))
  }

  function SpellItem(item: ItemTree, tail: seq<Token>): seq<Token>
    decreases item
  {
    match item
    case Call(name, args) => SpellPadded(name, SpellArgs(args, tail))
    case AddInterval(name, lparen, unit, comma1, amount, comma2, date, rparen) =>
      SpellPadded(name, SpellPadded(lparen, SpellPadded(unit, SpellPadded(comma1,
        SpellOperand(amount, SpellPadded(comma2, SpellOperand(date, SpellPadded(rparen, tail))))))))
    case LocateCall(name, lparen, needle, skipped1, haystack, skipped2, offset, skipped3) =>
      SpellPadded(name, SpellPadded(lparen, SpellOperand(needle, SpellPadded(skipped1,
        SpellOperand(haystack, SpellPadded(skipped2, SpellOperand(offset, SpellPadded(skipped3, tail))))))))
    case LtrimCall(name, lparen, param, skipped) =>
      SpellPadded(name, SpellPadded(lparen, SpellOperand(param, SpellPadded(skipped, tail))))
    case CurrentTimestamp(name) => SpellPadded(name, tail)
    case CurrentTimestampOf(name, lparen, body) => SpellPadded(name, SpellPadded(lparen, SpellBody(body, tail)))
    case Literal(lit) => SpellPadded(lit, tail)
    case GivenUp(call) => SpellPartial(call, tail)
  }

  function SpellPartial(call: Partial, tail: seq<Token>): seq<Token>
    decreases call
  {
    match call
    case NoLiteral => tail
    case NoFunction(name) => SpellPadded(name, tail)
    case NoParenthesis(name) => SpellPadded(name, tail)
    case NoUnit(name, lparen, unit) => SpellPadded(name, SpellPadded(lparen, SpellPadded(unit, tail)))
    case NoComma(name, lparen, unit) => SpellPadded(name, SpellPadded(lparen, SpellPadded(unit, tail)))
    case NoSecondComma(name, lparen, unit, comma1, amount) =>
      SpellPadded(name, SpellPadded(lparen, SpellPadded(unit, SpellPadded(comma1, SpellOperand(amount, tail)))))
    case NoEnd(name, lparen, unit, comma1, amount, comma2, date) =>
      SpellPadded(name, SpellPadded(lparen, SpellPadded(unit, SpellPadded(comma1,
        SpellOperand(amount, SpellPadded(comma2, SpellOperand(date, tail)))))))
    case NoOperand(name, lparen) => SpellPadded(name, SpellPadded(lparen, tail))
    case NoHaystack(name, lparen, needle, skipped1) =>
      SpellPadded(name, SpellPadded(lparen, SpellOperand(needle, SpellPadded(skipped1, tail))))
  }

  function SpellArgs(args: Args, tail: seq<Token>): seq<Token>
    decreases args
  {
    match args
    case NoArgs => tail
    case ArgToken(tok, rest) => [tok] + SpellArgs(rest, tail)
    case ArgEscape(e, rest) => SpellEscape(e, SpellArgs(rest, tail))
  }

  function SpellBody(body: Body, tail: seq<Token>): seq<Token>
    decreases body
  {
    match body
    case Close(tok) => [tok] + tail
    case BodyToken(tok, rest) => [tok] + SpellBody(rest, tail)
    case BodyGroup(open, inner, rest) => [open] + SpellBody(inner, SpellBody(rest, tail))
    case BodyEscape(e, rest) => SpellEscape(e, SpellBody(rest, tail))
  }

  function SpellOperand(op: OperandTree, tail: seq<Token>): seq<Token>
    decreases op
  {
    match op
    case Simple(lit) => SpellPadded(lit, tail)
    case Group(lparen, body) => SpellPadded(lparen, SpellBody(body, tail))
    case Named(name, lparen, body) => SpellPadded(name, SpellPadded(lparen, SpellBody(body, tail)))
    case ScalarCall(name, open, body) => SpellPadded(name, [open] + SpellBody(body, tail))
    case Braced(gap, e) => gap + SpellEscape(e, tail)
    case Now => tail
    case Missing => tail
  }

  /** The token behind `items`: the next keyword, or what ends the escape. */
  function NextOf(items: Items, close: Padded): Padded {
    if items.NoItems? then close else items.key
  }

  /** What follows that token. */
  function BehindNext(items: Items, close: Padded, tail: seq<Token>): seq<Token> {
    match items
    case NoItems => tail
    case MoreItems(_, item, rest) => SpellItem(item, SpellItems(rest, SpellPadded(close, tail)))
  }

  // ---- Meaning

  /** An escape that is given up stands for `src`, the whole sequence being rewritten. */
  function Meaning(src: string, e: EscapeTree): string
    decreases e
  {
    if e.close.tok.kind == RCURLY then MeaningOfItems(src, e.items) else src
  }

  function MeaningOfItems(src: string, items: Items): string
    decreases items
  {
    match items
    case NoItems => ""
    case MoreItems(key, item, rest) => MeaningOfItem(src, key.tok.kind, item) + MeaningOfItems(src, rest)
  }

  function MeaningOfItem(src: string, key: TokenType, item: ItemTree): string
    decreases item
  {
    match item
    case Call(name, args) =>
      if name.tok.kind.Scalar? then
        ServerName(name.tok.kind.f) + MeaningOfArgs(src, args, name.tok.kind.f != EXTRACT)
      else ""
    case AddInterval(_, _, unit, _, amount, _, date, _) =>
      ServerName(TIMESTAMPADD) + "(" + UnitName(unit.tok.kind) + ", " + MeaningOfOperand(src, amount) + ", "
      + MeaningOfOperand(src, date) + ")"
    case LocateCall(_, _, needle, _, haystack, _, _, _) =>
      "position(" + MeaningOfOperand(src, haystack) + "," + MeaningOfOperand(src, needle) + ")"
    case LtrimCall(_, _, param, _) => "replaceRegexpOne(" + MeaningOfOperand(src, param) + ", '^\\\\s+', '')"
    case CurrentTimestamp(_) => "now()"
    case CurrentTimestampOf(_, _, _) => "now()"
    case Literal(lit) => if key == D then lit.tok.literal else WithoutMilliseconds(lit.tok.literal)
    case GivenUp(_) => src
  }

  /** Unit names turn into string literals up to the first EXTRACT, and stay as they are behind it. */
  function MeaningOfArgs(src: string, args: Args, units: bool): string
    decreases args
  {
    match args
    case NoArgs => ""
    case ArgToken(tok, rest) =>
      if tok.kind == Scalar(EXTRACT) then ServerName(EXTRACT) + MeaningOfArgs(src, rest, false)
      else (if units then MeaningOfArgument(tok) else tok.literal) + MeaningOfArgs(src, rest, units)
    case ArgEscape(e, rest) => Meaning(src, e) + MeaningOfArgs(src, rest, units)
  }

  function MeaningOfArgument(tok: Token): string {
    if IsUnit(tok.kind) then "'" + UnitName(tok.kind) + "'" else tok.literal
  }

  function MeaningOfBody(src: string, body: Body): string
    decreases body
  {
    match body
    case Close(tok) => tok.literal
    case BodyToken(tok, rest) => tok.literal + MeaningOfBody(src, rest)
    case BodyGroup(open, inner, rest) => (open.literal + MeaningOfBody(src, inner)) + MeaningOfBody(src, rest)
    case BodyEscape(e, rest) => Meaning(src, e) + MeaningOfBody(src, rest)
  }

  function MeaningOfOperand(src: string, op: OperandTree): string
    decreases op
  {
    match op
    case Simple(lit) => lit.tok.literal
    case Group(lparen, body) => lparen.tok.literal + MeaningOfBody(src, body)
    case Named(name, lparen, body) => name.tok.literal + (lparen.tok.literal + MeaningOfBody(src, body))
    case ScalarCall(name, open, body) =>
      if name.tok.kind.Scalar? then ServerName(name.tok.kind.f) + (open.literal + MeaningOfBody(src, body)) else ""
    case Braced(_, e) => Meaning(src, e)
    case Now => "now()"
    case Missing => ""
  }

  // ---- Well-formedness

  predicate Blanks(gap: seq<Token>) {
    forall i :: 0 <= i < |gap| ==> gap[i].kind == SPACE
  }

  /** `p` is read as one token: with blanks emitted there are none in front of it. */
  predicate Reads(p: Padded, emit: bool) {
    Blanks(p.gap) && if emit then p.gap == [] else p.tok.kind != SPACE
  }

  predicate Is(p: Padded, kind: TokenType, emit: bool) {
    Reads(p, emit) && p.tok.kind == kind
  }

  /** The next token is not of this kind, or a blank is emitted in front of it. */
  predicate IsNot(p: Padded, kind: TokenType, emit: bool) {
    p.tok.kind != kind || (emit && p.gap != [])
  }

  /** Behind these operands blanks are emitted. */
  predicate Compound(op: OperandTree) {
    !op.Simple? && !op.Now? && !op.Missing?
  }

  predicate WellFormed(e: EscapeTree)
    decreases e
  {
    e.open.kind == LCURLY && WellFormedItems(e.items, false, e.close)
  }

  /** `{}` */
  predicate IsEmpty(e: EscapeTree) {
    e.items.NoItems? && e.close.tok.kind == RCURLY
  }

  /** The words that something is translated behind. */
  predicate OpensItem(kind: TokenType) { kind == FN || kind == D || kind == TS }

  /** `emit` says whether the lexer emits blanks where the first keyword stands. */
  predicate WellFormedItems(items: Items, emit: bool, close: Padded)
    decreases items
  {
    match items
    case NoItems => Blanks(close.gap) && close.tok.kind != SPACE && !OpensItem(close.tok.kind)
    case MoreItems(key, item, rest) =>
      && Blanks(key.gap) && OpensItem(key.tok.kind)
      && (if key.tok.kind == FN then WellFormedFunction(item, emit, NextOf(rest, close))
          else WellFormedLiteral(item, emit, NextOf(rest, close)))
      && WellFormedItems(rest, EmitBehind(item, emit), close)
  }

  /** What belongs to D or TS; `next` is the token behind it. */
  predicate WellFormedLiteral(item: ItemTree, emit: bool, next: Padded) {
    match item
    case Literal(lit) => Is(lit, STRING, emit) && lit.tok.literal != ""
    case GivenUp(call) => call.NoLiteral? && IsNot(next, STRING, emit)
    case _ => false
  }

  /** What belongs to FN. */
  predicate WellFormedFunction(item: ItemTree, emit: bool, next: Padded)
    decreases item
  {
    match item
    case Call(name, args) =>
      && Reads(name, emit) && name.tok.kind.Scalar? && name.tok.kind.f != TIMESTAMPADD
      && WellFormedArgs(args) && next.gap == [] && (next.tok.kind == RCURLY || next.tok.kind == INVALID)
    case AddInterval(name, lparen, unit, comma1, amount, comma2, date, rparen) =>
      && WellFormedHead(name, lparen, unit, comma1, emit)
      && WellFormedOperand(amount, emit, comma2) && !amount.Missing? && comma2.tok.kind == COMMA
      && WellFormedOperand(date, emit || Compound(amount), rparen) && !date.Missing? && rparen.tok.kind == RPARENT
    case LocateCall(name, lparen, needle, skipped1, haystack, skipped2, offset, skipped3) =>
      && Is(name, LOCATE, emit) && Is(lparen, LPARENT, emit)
      && WellFormedOperand(needle, emit, skipped1) && !needle.Missing?
      && WellFormedOperand(haystack, emit || Compound(needle), skipped2) && !haystack.Missing?
      && WellFormedOperand(offset, emit || Compound(needle) || Compound(haystack), skipped3)
    case LtrimCall(name, lparen, param, skipped) =>
      && Is(name, LTRIM, emit) && Is(lparen, LPARENT, emit)
      && WellFormedOperand(param, emit, skipped) && !param.Missing?
    case CurrentTimestamp(name) => Is(name, Tokens.CURRENT_TIMESTAMP, emit) && IsNot(next, LPARENT, emit)
    case CurrentTimestampOf(name, lparen, body) =>
      Is(name, Tokens.CURRENT_TIMESTAMP, emit) && Is(lparen, LPARENT, emit) && WellFormedBody(body)
    case Literal(_) => false
    case GivenUp(call) => Fails(call, emit, next)
  }

  /** `TIMESTAMPADD(unit,` */
  predicate WellFormedHead(name: Padded, lparen: Padded, unit: Padded, comma: Padded, emit: bool) {
    && Is(name, Scalar(TIMESTAMPADD), emit) && Is(lparen, LPARENT, emit)
    && Reads(unit, emit) && IsUnit(unit.tok.kind) && Is(comma, COMMA, emit)
  }

  /** The tokens an operand may start with. */
  predicate OpensOperand(kind: TokenType) {
    || kind == LCURLY || kind == LPARENT || kind == IDENT || kind == NUMBER || kind == STRING || kind.Scalar?
    || kind == Tokens.CURRENT_TIMESTAMP
  }

  /** A name that no translation is known for. */
  predicate NameUnknown(kind: TokenType) {
    !kind.Scalar? && kind != LOCATE && kind != LTRIM && kind != Tokens.CURRENT_TIMESTAMP
  }

  /** At `next` the call cannot be translated. */
  predicate Fails(call: Partial, emit: bool, next: Padded)
    decreases call
  {
    match call
    case NoLiteral => false
    case NoFunction(name) => Reads(name, emit) && NameUnknown(name.tok.kind)
    case NoParenthesis(name) =>
      && Reads(name, emit) && IsNot(next, LPARENT, emit)
      && (name.tok.kind == Scalar(TIMESTAMPADD) || name.tok.kind == LOCATE || name.tok.kind == LTRIM)
    case NoUnit(name, lparen, unit) =>
      && Is(name, Scalar(TIMESTAMPADD), emit) && Is(lparen, LPARENT, emit)
      && Reads(unit, emit) && !IsUnit(unit.tok.kind)
    case NoComma(name, lparen, unit) =>
      && Is(name, Scalar(TIMESTAMPADD), emit) && Is(lparen, LPARENT, emit)
      && Reads(unit, emit) && IsUnit(unit.tok.kind) && IsNot(next, COMMA, emit)
    case NoSecondComma(name, lparen, unit, comma1, amount) =>
      && WellFormedHead(name, lparen, unit, comma1, emit)
      && WellFormedOperand(amount, emit, next) && (amount.Missing? || next.tok.kind != COMMA)
    case NoEnd(name, lparen, unit, comma1, amount, comma2, date) =>
      && WellFormedHead(name, lparen, unit, comma1, emit)
      && WellFormedOperand(amount, emit, comma2) && !amount.Missing? && comma2.tok.kind == COMMA
      && WellFormedOperand(date, emit || Compound(amount), next) && (date.Missing? || next.tok.kind != RPARENT)
    case NoOperand(name, lparen) =>
      && (Is(name, LOCATE, emit) || Is(name, LTRIM, emit)) && Is(lparen, LPARENT, emit)
      && !OpensOperand(next.tok.kind)
    case NoHaystack(name, lparen, needle, skipped1) =>
      && Is(name, LOCATE, emit) && Is(lparen, LPARENT, emit)
      && WellFormedOperand(needle, emit, skipped1) && !needle.Missing? && !OpensOperand(next.tok.kind)
  }

  /** Whether blanks are emitted behind the item. */
  function EmitBehind(item: ItemTree, emit: bool): bool {
    match item
    case Call(_, _) => false
    case AddInterval(_, _, _, _, amount, _, date, _) => emit || Compound(amount) || Compound(date)
    case LocateCall(_, _, needle, _, haystack, _, offset, _) =>
      emit || Compound(needle) || Compound(haystack) || Compound(offset)
    case LtrimCall(_, _, param, _) => emit || Compound(param)
    case CurrentTimestampOf(_, _, _) => true
    case GivenUp(call) => EmitBehindPartial(call, emit)
    case _ => emit
  }

  function EmitBehindPartial(call: Partial, emit: bool): bool {
    match call
    case NoSecondComma(_, _, _, _, amount) => emit || Compound(amount)
    case NoEnd(_, _, _, _, amount, _, date) => emit || Compound(amount) || Compound(date)
    case NoHaystack(_, _, needle, _) => emit || Compound(needle)
    case _ => emit
  }

  predicate WellFormedArgs(args: Args)
    decreases args
  {
    match args
    case NoArgs => true
    case ArgToken(tok, rest) =>
      && tok.kind != RCURLY && tok.kind != LCURLY && tok.kind != EOS && tok.kind != INVALID
      && WellFormedArgs(rest)
    case ArgEscape(e, rest) => WellFormed(e) && WellFormedArgs(rest)
  }

  predicate WellFormedBody(body: Body)
    decreases body
  {
    match body
    case Close(tok) => tok.kind == RPARENT
    case BodyToken(tok, rest) =>
      && tok.kind != RPARENT && tok.kind != LPARENT && tok.kind != LCURLY
      && tok.kind != EOS && tok.kind != INVALID && WellFormedBody(rest)
    case BodyGroup(open, inner, rest) =>
      open.kind == LPARENT && WellFormedBody(inner) && WellFormedBody(rest)
    case BodyEscape(e, rest) => WellFormed(e) && WellFormedBody(rest)
  }

  /** `emit` says whether the lexer emits blanks where the operand starts, and `next` is the token behind
      it.  If blanks are emitted, none may stand between a name and its parenthesis: the name is read as
      an operand by itself then. */
  predicate WellFormedOperand(op: OperandTree, emit: bool, next: Padded)
    decreases op
  {
    && Blanks(next.gap) && next.tok.kind != SPACE
    && match op
       case Simple(lit) =>
         && Blanks(lit.gap) && lit.tok.literal != ""
         && (lit.tok.kind == NUMBER || lit.tok.kind == STRING
             || (lit.tok.kind == IDENT && IsNot(next, LPARENT, emit)))
       case Group(lparen, body) =>
         Blanks(lparen.gap) && lparen.tok.kind == LPARENT && lparen.tok.literal != "" && WellFormedBody(body)
       case Named(name, lparen, body) =>
         && Blanks(name.gap) && name.tok.kind == IDENT && name.tok.literal != ""
         && Is(lparen, LPARENT, emit) && WellFormedBody(body)
       case ScalarCall(name, _, body) => Blanks(name.gap) && name.tok.kind.Scalar? && WellFormedBody(body)
       case Braced(gap, e) => Blanks(gap) && WellFormed(e) && !IsEmpty(e)
       case Now => next.tok.kind == Tokens.CURRENT_TIMESTAMP
       case Missing => !OpensOperand(next.tok.kind)
  }
}
