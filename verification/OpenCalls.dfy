/** Calls of TIMESTAMPADD, LTRIM and LOCATE up to an operand, and what such a call stands in. */
module OpenCalls {
  import opened FunctionDeclare
  import opened Tokens
  import opened Lexer
  import opened EscapeSequences
  import opened EscapeTrees

  /** What a call stands in: nothing, or the arguments of another. */
  datatype Context = Whole | Inside(open: Token, key: Padded, name: Padded, front: Args, inner: Context)

  function SpellContext(context: Context, t: seq<Token>): seq<Token> {
    match context
    case Whole => t
    case Inside(open, key, name, front, inner) =>
      [open] + SpellPadded(key, SpellPadded(name, SpellArgs(front, SpellContext(inner, t))))
  }

  predicate WellFormedContext(context: Context) {
    match context
    case Whole => true
    case Inside(open, key, name, front, inner) =>
      && open.kind == LCURLY && Blanks(key.gap) && key.tok.kind == FN
      && Reads(name, false) && name.tok.kind.Scalar? && name.tok.kind.f != TIMESTAMPADD
      && WellFormedArgs(front) && WellFormedContext(inner)
  }

  /** An operand's place: what stands between the opening parenthesis and the operand. */
  datatype Place =
    | Amount(unit: Padded, comma1: Padded)
    | Date(unit: Padded, comma1: Padded, amount: OperandTree, comma2: Padded)
    | Param
    | Needle
    | Haystack(needle: OperandTree, skipped1: Padded)
    | Offset(needle: OperandTree, skipped1: Padded, haystack: OperandTree, skipped2: Padded)

  function SpellPlace(place: Place, t: seq<Token>): seq<Token> {
    match place
    case Amount(unit, comma1) => SpellPadded(unit, SpellPadded(comma1, t))
    case Date(unit, comma1, amount, comma2) =>
      SpellPadded(unit, SpellPadded(comma1, SpellOperand(amount, SpellPadded(comma2, t))))
    case Param => t
    case Needle => t
    case Haystack(needle, skipped1) => SpellOperand(needle, SpellPadded(skipped1, t))
    case Offset(needle, skipped1, haystack, skipped2) =>
      SpellOperand(needle, SpellPadded(skipped1, SpellOperand(haystack, SpellPadded(skipped2, t))))
  }

  /** A call up to an operand. */
  datatype OpenCall = OpenCall(open: Token, key: Padded, name: Padded, lparen: Padded, place: Place)

  function SpellCall(call: OpenCall, t: seq<Token>): seq<Token> {
    [call.open] + SpellPadded(call.key, SpellInside(call, t))
  }

  /** What stands behind the keyword. */
  function SpellInside(call: OpenCall, t: seq<Token>): seq<Token> {
    SpellPadded(call.name, SpellPadded(call.lparen, SpellPlace(call.place, t)))
  }

  /** Whether blanks are emitted where the operand starts. */
  predicate EmitAt(place: Place) {
    match place
    case Date(_, _, amount, _) => Compound(amount)
    case Haystack(needle, _) => Compound(needle)
    case Offset(needle, _, haystack, _) => Compound(needle) || Compound(haystack)
    case _ => false
  }

  predicate WellFormedCall(call: OpenCall) {
    && call.open.kind == LCURLY && Blanks(call.key.gap) && call.key.tok.kind == FN
    && Is(call.lparen, LPARENT, false)
    && match call.place
       case Amount(unit, comma1) => WellFormedHead(call.name, call.lparen, unit, comma1, false)
       case Date(unit, comma1, amount, comma2) =>
         && WellFormedHead(call.name, call.lparen, unit, comma1, false)
         && WellFormedOperand(amount, false, comma2) && !amount.Missing? && comma2.tok.kind == COMMA
       case Param => Is(call.name, LTRIM, false)
       case Needle => Is(call.name, LOCATE, false)
       case Haystack(needle, skipped1) =>
         Is(call.name, LOCATE, false) && WellFormedOperand(needle, false, skipped1) && !needle.Missing?
       case Offset(needle, skipped1, haystack, skipped2) =>
         && Is(call.name, LOCATE, false) && WellFormedOperand(needle, false, skipped1) && !needle.Missing?
         && WellFormedOperand(haystack, Compound(needle), skipped2) && !haystack.Missing?
  }

  /** The tokens of `src` start with the call, and `t` follows. */
  predicate Starts(src: string, call: OpenCall, t: seq<Token>) {
    Lexable(src, 0) && WellFormedCall(call) && TokensFrom(src, 0) == SpellCall(call, t)
  }

  /** They are `context`, the call in it, and `t`. */
  predicate StartsIn(src: string, context: Context, call: OpenCall, t: seq<Token>) {
    && Lexable(src, 0) && WellFormedContext(context) && WellFormedCall(call)
    && TokensFrom(src, 0) == SpellContext(context, SpellCall(call, t))
  }
}
