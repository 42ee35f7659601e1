/** The rewriting of one `{...}` escape sequence, as a function of the lexer's state.

    `src` is everywhere the whole sequence being rewritten: what a failing rewrite gives back. */
module EscapeSequences {
  import opened Chars
  import opened FunctionDeclare
  import opened Tokens
  import opened Lexer

  /** Text written and the lexer state left behind. */
  datatype Out = Out(text: string, lex: LexState)

  /** `units_map`; "" where the source's map has no entry. */
  function UnitName(kind: TokenType): string {
    match kind
    case SQL_TSI_SECOND => "second"
    case SQL_TSI_MINUTE => "minute"
    case SQL_TSI_HOUR => "hour"
    case SQL_TSI_DAY => "day"
    case SQL_TSI_WEEK => "week"
    case SQL_TSI_MONTH => "month"
    case Scalar(SQL_TSI_QUARTER) => "quarter"
    case SQL_TSI_YEAR => "year"
    case _ => ""
  }

  predicate IsUnit(kind: TokenType) { UnitName(kind) != "" }

  /** What an argument token of function `f` is written as: `literal_map` quotes the unit names,
      but not in the arguments of EXTRACT. */
  function ArgumentText(f: ScalarFunction, t: Token): string {
    if f != EXTRACT && IsUnit(t.kind) then "'" + UnitName(t.kind) + "'" else t.literal
  }

  /** `function_map_strip_params` has this one entry. */
  const CURRENT_TIMESTAMP_CALL := "now()"

  // ---- removeMilliseconds

  /** The loop of `removeMilliseconds` from position `p` downwards; `dot` is 0 until one is seen. */
  function FractionDot(s: string, p: nat, dot: nat): (d: nat)
    requires p < |s|
    ensures d == dot || d <= p
  {
    if p == 0 then 0
    else if IsDigit(s[p]) then FractionDot(s, p - 1, dot)
    else if s[p] == '.' then if dot != 0 then 0 else FractionDot(s, p - 1, p)
    else dot
  }

  function WithoutMilliseconds(s: string): string {
    if s == "" then ""
    else
      var quoted := s[|s| - 1] == '\'';
      if quoted && |s| == 1 then s
      else
        var d := FractionDot(s, if quoted then |s| - 2 else |s| - 1, 0);
        if d == 0 then s else s[..d] + if quoted then "'" else ""
  }

  // ---- The rewriting functions

  /** Blanks at the front are consumed; the token behind them is looked at. */
  function SkipSpaces(s: LexState): (r: LexState)
    ensures r.Size() <= s.Size() && r.emit == s.emit
    ensures r.queue != [] && r.queue[0].kind != SPACE
    decreases s.Size()
  {
    if s.Head().kind == SPACE then SkipSpaces(s.Popped()) else s.Peeked()
  }

  function Parentheses(src: string, s: LexState): (r: Out)
    ensures r.lex.Size() <= s.(emit := true).Popped().Size()
    decreases s.(emit := true).Popped().Size(), 4
  {
    var s1 := s.(emit := true);
    var r := ParenthesesLoop(src, s1.Popped());
    Out(s1.Head().literal + r.text, r.lex)
  }

  function ParenthesesLoop(src: string, s: LexState): (r: Out)
    ensures r.lex.Size() <= s.Size()
    decreases s.Size(), 3
  {
    var tok := s.Head();
    if tok.kind == RPARENT then Out(tok.literal, s.Popped())
    else if tok.kind == LPARENT then
      var inner := Parentheses(src, s.Peeked());
      var r := ParenthesesLoop(src, inner.lex);
      Out(inner.text + r.text, r.lex)
    else if tok.kind == LCURLY then
      var inner := Nested(src, s.Peeked());
      var r := ParenthesesLoop(src, inner.lex);
      Out(inner.text + r.text, r.lex)
    else if tok.kind == EOS || tok.kind == INVALID then Out("", s.Peeked())
    else
      var r := ParenthesesLoop(src, s.Popped());
      Out(tok.literal + r.text, r.lex)
  }

  predicate StartsOperand(kind: TokenType) {
    kind == LCURLY || kind.Scalar? || kind == LPARENT || kind == IDENT || kind == NUMBER
    || kind == STRING || kind == CURRENT_TIMESTAMP
  }

  /** The empty text is the source's sign of failure. */
  function IdentOrFunction(src: string, s: LexState): (r: Out)
    ensures r.lex.Size() <= s.Size()
    decreases s.Size(), 6
  {
    var s0 := SkipSpaces(s);
    if !StartsOperand(s0.Head().kind) then Out("", s0)
    else
      var r := Operand(src, s0);
      Out(r.text, SkipSpaces(r.lex))
  }

  function Operand(src: string, s: LexState): (r: Out)
    requires StartsOperand(s.Head().kind)
    ensures r.lex.Size() <= s.Size()
    decreases s.Size(), 5
  {
    var tok := s.Head();
    if tok.kind == LCURLY then Nested(src, s.Peeked())
    else if tok.kind.Scalar? then
      var r := Parentheses(src, s.Popped());
      Out(ServerName(tok.kind.f) + r.text, r.lex)
    else if tok.kind == LPARENT then Parentheses(src, s.Peeked())
    else if tok.kind == IDENT then
      var s1 := s.Filled(2);
      if s1.queue[1].kind == LPARENT then
        var r := Parentheses(src, s1.Popped());
        Out(tok.literal + r.text, r.lex)
      else Out(tok.literal, s1.Popped())
    else if tok.kind == CURRENT_TIMESTAMP then Out(CURRENT_TIMESTAMP_CALL, s.Peeked())
    else Out(tok.literal, s.Popped())
  }

  /** `TIMESTAMPADD(unit, amount, date)`, behind the name. */
  function TimestampAdd(src: string, s: LexState): (r: Out)
    ensures r.lex.Size() <= s.Size()
    decreases s.Size(), 8
  {
    if s.Head().kind != LPARENT then Out(src, s.Peeked())
    else
      var s1 := s.Popped();
      var unit := s1.Head();
      var s2 := s1.Popped();
      if !IsUnit(unit.kind) then Out(src, s2)
      else if s2.Head().kind != COMMA then Out(src, s2.Peeked())
      else AddedInterval(src, unit.kind, s2.Popped())
  }

  /** The same behind the first comma. */
  function AddedInterval(src: string, unit: TokenType, s: LexState): (r: Out)
    ensures r.lex.Size() <= s.Size()
    decreases s.Size(), 7
  {
    var amount := IdentOrFunction(src, s);
    if amount.text == "" then Out(src, amount.lex)
    else
      var s1 := SkipSpaces(amount.lex);
      if s1.Head().kind != COMMA then Out(src, s1)
      else
        var date := IdentOrFunction(src, s1.Popped());
        if date.text == "" then Out(src, date.lex)
        else
          var s2 := SkipSpaces(date.lex);
          if s2.Head().kind != RPARENT then Out(src, s2)
          else
            Out(ServerName(TIMESTAMPADD) + "(" + UnitName(unit) + ", " + amount.text + ", "
                + date.text + ")", s2.Popped())
  }

  function PositionCall(haystack: string, needle: string): string {
    "position(" + haystack + "," + needle + ")"
  }

  function TrimCall(param: string): string {
    "replaceRegexpOne(" + param + ", '^\\\\s+', '')"
  }

  /** `LOCATE(needle, haystack, offset)`, behind the name. */
  function Locate(src: string, s: LexState): (r: Out)
    ensures r.lex.Size() <= s.Size()
    decreases s.Size(), 7
  {
    if s.Head().kind != LPARENT then Out(src, s.Peeked())
    else
      var needle := IdentOrFunction(src, s.Popped());
      if needle.text == "" then Out(src, needle.lex)
      else
        var haystack := IdentOrFunction(src, needle.lex.Popped());
        if haystack.text == "" then Out(src, haystack.lex)
        else
          var offset := IdentOrFunction(src, haystack.lex.Popped());
          Out(PositionCall(haystack.text, needle.text), offset.lex.Popped())
  }

  /** `LTRIM(param)`, behind the name. */
  function Ltrim(src: string, s: LexState): (r: Out)
    ensures r.lex.Size() <= s.Size()
    decreases s.Size(), 7
  {
    if s.Head().kind != LPARENT then Out(src, s.Peeked())
    else
      var param := IdentOrFunction(src, s.Popped());
      if param.text == "" then Out(src, param.lex)
      else Out(TrimCall(param.text), param.lex.Popped())
  }

  function Function(src: string, s: LexState): (r: Out)
    ensures r.lex.Size() <= s.Size()
    decreases s.Size(), 9
  {
    var fn := s.Head();
    var s1 := s.Popped();
    if fn.kind == Scalar(TIMESTAMPADD) then TimestampAdd(src, s1)
    else if fn.kind == LOCATE then Locate(src, s1)
    else if fn.kind == LTRIM then Ltrim(src, s1)
    else if fn.kind.Scalar? then Arguments(src, fn.kind.f, s1)
    else if fn.kind == CURRENT_TIMESTAMP then CurrentTimestamp(src, s1)
    else Out(src, s1)
  }

  /** `CURRENT_TIMESTAMP`, behind the name: whatever its parentheses hold is dropped. */
  function CurrentTimestamp(src: string, s: LexState): (r: Out)
    ensures r.lex.Size() <= s.Size()
    decreases s.Size(), 5
  {
    var s1 := s.Peeked();
    Out(CURRENT_TIMESTAMP_CALL, if s1.Head().kind == LPARENT then Parentheses(src, s1).lex else s1)
  }

  /** A function that only changes its name; its arguments are copied up to the closing brace. */
  function Arguments(src: string, f: ScalarFunction, s: LexState): (r: Out)
    ensures r.lex.Size() <= s.Size()
    decreases s.Size(), 4
  {
    var r := FunctionLoop(src, f, s.(emit := true));
    Out(ServerName(f) + r.text, r.lex.(emit := false))
  }

  /** The loop over the arguments of `f`; an EXTRACT among them swallows all that follow. */
  function FunctionLoop(src: string, f: ScalarFunction, s: LexState): (r: Out)
    ensures r.lex.Size() <= s.Size()
    decreases s.Size(), 3
  {
    var tok := s.Head();
    if tok.kind == RCURLY || tok.kind == EOS || tok.kind == INVALID then Out("", s.Peeked())
    else if tok.kind == LCURLY then
      var inner := Nested(src, s.Peeked());
      var r := FunctionLoop(src, f, inner.lex);
      Out(inner.text + r.text, r.lex)
    else if tok.kind == Scalar(EXTRACT) then
      var inner := Arguments(src, EXTRACT, s.Popped());
      var r := FunctionLoop(src, f, inner.lex);
      Out(inner.text + r.text, r.lex)
    else
      var r := FunctionLoop(src, f, s.Popped());
      Out(ArgumentText(f, tok) + r.text, r.lex)
  }

  /** `processDate` and `processDateTime`: the string literal is written as `literal`. */
  function Literal(src: string, literal: string, s: LexState): (r: Out)
    ensures r.lex.Size() <= s.Size()
  {
    if s.Head().kind == STRING then Out(literal, s.Popped()) else Out(src, s.Peeked())
  }

  /** An escape sequence inside another: blanks are off inside it and on again behind it. */
  function Nested(src: string, s: LexState): (r: Out)
    ensures r.lex.Size() <= s.Size()
    ensures s.(emit := false).Head().kind == LCURLY ==> r.lex.Size() < s.Size()
    decreases s.Size(), 2
  {
    var r := Escape(src, s.(emit := false));
    Out(r.text, r.lex.(emit := true))
  }

  function Escape(src: string, s: LexState): (r: Out)
    ensures r.lex.Size() <= s.Size()
    ensures s.Head().kind == LCURLY ==> r.lex.Size() < s.Size()
    decreases s.Size(), 1
  {
    if s.Head().kind != LCURLY then Out(src, s.Peeked()) else EscapeLoop(src, "", s.Popped())
  }

  /** What stands behind the keyword `key`. */
  function Item(src: string, key: TokenType, s: LexState): (r: Out)
    ensures r.lex.Size() <= s.Size()
    decreases s.Size(), 10
  {
    if key == FN then Function(src, s)
    else if key == D then Literal(src, s.Head().literal, s)
    else Literal(src, WithoutMilliseconds(s.Head().literal), s)
  }

  function EscapeLoop(src: string, result: string, s: LexState): (r: Out)
    ensures r.lex.Size() <= s.Size()
    decreases s.Size(), 3
  {
    var s0 := SkipSpaces(s);
    var tok := s0.Head();
    var s1 := s0.Popped();
    if tok.kind == FN || tok.kind == D || tok.kind == TS then
      var r := Item(src, tok.kind, s1);
      EscapeLoop(src, result + r.text, r.lex)
    else Out(if tok.kind == RCURLY then result else src, s1)
  }

  /** `processEscapeSequences`. */
  function RewriteSequence(src: string): string
    requires Lexable(src, 0)
  {
    Escape(src, LexState([], TokensFrom(src, 0), false)).text
  }
}
