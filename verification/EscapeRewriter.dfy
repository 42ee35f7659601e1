/** The rewriting methods themselves: loops that append to a result and advance the shared lexer.
    Each is tied to the function of the same part in `EscapeSequences`. */
module EscapeRewriter {
  import opened Chars
  import opened FunctionDeclare
  import opened Tokens
  import opened Lexer
  import opened EscapeSequences

  lemma {:induction false} FunctionLoopPeeked(src: string, f: ScalarFunction, s: LexState)
    ensures FunctionLoop(src, f, s.Peeked()) == FunctionLoop(src, f, s)
  {
  }

  method SkipBlanks(lex: Lexer)
    requires lex.Valid()
    modifies lex
    ensures lex.Valid() && lex.State() == SkipSpaces(old(lex.State()))
  {
    var matched := true;
    while matched
      invariant lex.Valid()
      invariant if matched then SkipSpaces(lex.State()) == SkipSpaces(old(lex.State()))
                else lex.State() == SkipSpaces(old(lex.State()))
      decreases lex.State().Size(), matched
    {
      matched := lex.Match(SPACE);
    }
  }

  method ProcessParentheses(src: string, lex: Lexer) returns (result: string)
    requires lex.Valid()
    modifies lex
    ensures lex.Valid() && Out(result, lex.State()) == Parentheses(src, old(lex.State()))
    decreases lex.State().(emit := true).Popped().Size(), 4
  {
    lex.SetEmitSpaces(true);
    var open := lex.Consume();
    result := open.literal;
    ghost var all := ParenthesesLoop(src, lex.State());
    ghost var size := lex.State().Size();
    while true
      invariant lex.Valid() && lex.State().Size() <= size
      invariant var r := ParenthesesLoop(src, lex.State());
                r.lex == all.lex && result + r.text == open.literal + all.text
      decreases lex.State().Size()
    {
      ghost var r := ParenthesesLoop(src, lex.State());
      ghost var before := result;
      var token := lex.Peek();
      if token.kind == RPARENT {
        result := result + token.literal;
        var _ := lex.Consume();
        break;
      } else if token.kind == LPARENT {
        var inner := ProcessParentheses(src, lex);
        result := result + inner;
        Concat3(before, inner, ParenthesesLoop(src, lex.State()).text);
      } else if token.kind == LCURLY {
        var inner := ProcessNested(src, lex);
        result := result + inner;
        Concat3(before, inner, ParenthesesLoop(src, lex.State()).text);
      } else if token.kind == EOS || token.kind == INVALID {
        break;
      } else {
        result := result + token.literal;
        var _ := lex.Consume();
        Concat3(before, token.literal, ParenthesesLoop(src, lex.State()).text);
      }
    }
  }

  method ProcessIdentOrFunction(src: string, lex: Lexer) returns (result: string)
    requires lex.Valid()
    modifies lex
    ensures lex.Valid() && Out(result, lex.State()) == IdentOrFunction(src, old(lex.State()))
    decreases lex.State().Size(), 7
  {
    SkipBlanks(lex);
    var token := lex.Peek();
    if !StartsOperand(token.kind) {
      return "";
    }
    result := ProcessOperand(src, token, lex);
    SkipBlanks(lex);
  }

  /** A name, and what is in parentheses behind it. */
  method ProcessName(src: string, token: Token, lex: Lexer) returns (result: string)
    requires lex.Valid() && lex.State().queue != [] && token == lex.State().Head() && token.kind == IDENT
    modifies lex
    ensures lex.Valid() && Out(result, lex.State()) == Operand(src, old(lex.State()))
    decreases lex.State().Size(), 5
  {
    var next := lex.LookAhead(1);
    var _ := lex.Consume();
    result := token.literal;
    if next.kind == LPARENT {
      var inner := ProcessParentheses(src, lex);
      result := result + inner;
    }
  }

  method ProcessOperand(src: string, token: Token, lex: Lexer) returns (result: string)
    requires lex.Valid() && lex.State().queue != [] && token == lex.State().Head()
    requires StartsOperand(token.kind)
    modifies lex
    ensures lex.Valid() && Out(result, lex.State()) == Operand(src, old(lex.State()))
    decreases lex.State().Size(), 6
  {
    if token.kind == LCURLY {
      result := ProcessNested(src, lex);
    } else if token.kind.Scalar? {
      var _ := lex.Consume();
      var inner := ProcessParentheses(src, lex);
      result := ServerName(token.kind.f) + inner;
    } else if token.kind == LPARENT {
      result := ProcessParentheses(src, lex);
    } else if token.kind == IDENT {
      result := ProcessName(src, token, lex);
    } else if token.kind == CURRENT_TIMESTAMP {
      result := CURRENT_TIMESTAMP_CALL;
    } else {
      result := token.literal;
      var _ := lex.Consume();
    }
  }

  method ProcessTimestampAdd(src: string, lex: Lexer) returns (result: string)
    requires lex.Valid()
    modifies lex
    ensures lex.Valid() && Out(result, lex.State()) == TimestampAdd(src, old(lex.State()))
    decreases lex.State().Size(), 8
  {
    var matched := lex.Match(LPARENT);
    if !matched {
      return src;
    }
    var unit := lex.Consume();
    if !IsUnit(unit.kind) {
      return src;
    }
    matched := lex.Match(COMMA);
    if !matched {
      return src;
    }
    var amount := ProcessIdentOrFunction(src, lex);
    if amount == "" {
      return src;
    }
    SkipBlanks(lex);
    matched := lex.Match(COMMA);
    if !matched {
      return src;
    }
    var date := ProcessIdentOrFunction(src, lex);
    if date == "" {
      return src;
    }
    SkipBlanks(lex);
    matched := lex.Match(RPARENT);
    if !matched {
      return src;
    }
    result := ServerName(TIMESTAMPADD) + "(" + UnitName(unit.kind) + ", " + amount + ", " + date + ")";
  }

  method ProcessLocate(src: string, lex: Lexer) returns (result: string)
    requires lex.Valid()
    modifies lex
    ensures lex.Valid() && Out(result, lex.State()) == Locate(src, old(lex.State()))
    decreases lex.State().Size(), 8
  {
    var matched := lex.Match(LPARENT);
    if !matched {
      return src;
    }
    var needle := ProcessIdentOrFunction(src, lex);
    if needle == "" {
      return src;
    }
    var _ := lex.Consume();
    var haystack := ProcessIdentOrFunction(src, lex);
    if haystack == "" {
      return src;
    }
    var _ := lex.Consume();
    var offset := ProcessIdentOrFunction(src, lex);
    var _ := lex.Consume();
    result := PositionCall(haystack, needle);
  }

  method ProcessLtrim(src: string, lex: Lexer) returns (result: string)
    requires lex.Valid()
    modifies lex
    ensures lex.Valid() && Out(result, lex.State()) == Ltrim(src, old(lex.State()))
    decreases lex.State().Size(), 8
  {
    var matched := lex.Match(LPARENT);
    if !matched {
      return src;
    }
    var param := ProcessIdentOrFunction(src, lex);
    if param == "" {
      return src;
    }
    var _ := lex.Consume();
    result := TrimCall(param);
  }

  method ProcessFunction(src: string, lex: Lexer) returns (result: string)
    requires lex.Valid()
    modifies lex
    ensures lex.Valid() && Out(result, lex.State()) == Function(src, old(lex.State()))
    decreases lex.State().Size(), 2
  {
    var fn := lex.Consume();
    if fn.kind == Scalar(TIMESTAMPADD) {
      result := ProcessTimestampAdd(src, lex);
    } else if fn.kind == LOCATE {
      result := ProcessLocate(src, lex);
    } else if fn.kind == LTRIM {
      result := ProcessLtrim(src, lex);
    } else if fn.kind.Scalar? {
      result := ProcessArguments(src, fn.kind.f, lex);
    } else if fn.kind == CURRENT_TIMESTAMP {
      result := CURRENT_TIMESTAMP_CALL;
      var next := lex.Peek();
      if next.kind == LPARENT {
        var _ := ProcessParentheses(src, lex);
      }
    } else {
      result := src;
    }
  }

  /** The loop that copies everything up to the closing brace. */
  method ProcessArguments(src: string, f: ScalarFunction, lex: Lexer) returns (result: string)
    requires lex.Valid()
    modifies lex
    ensures lex.Valid() && Out(result, lex.State()) == Arguments(src, f, old(lex.State()))
    decreases lex.State().Size(), 4
  {
    result := ServerName(f);
    lex.SetEmitSpaces(true);
    ghost var all := FunctionLoop(src, f, lex.State());
    ghost var whole := result + all.text;
    ghost var size := lex.State().Size();
    while true
      invariant lex.Valid() && lex.State().Size() <= size
      invariant var r := FunctionLoop(src, f, lex.State());
                r.lex == all.lex && result + r.text == whole
      decreases lex.State().Size()
    {
      ghost var before := result;
      FunctionLoopPeeked(src, f, lex.State());
      var tok := lex.Peek();
      if tok.kind == RCURLY || tok.kind == EOS || tok.kind == INVALID {
        break;
      }
      var text := ProcessArgument(src, f, tok, lex);
      result := result + text;
      Concat3(before, text, FunctionLoop(src, f, lex.State()).text);
    }
    lex.SetEmitSpaces(false);
  }

  /** One turn of that loop: writes the argument token `tok`, or the escape or EXTRACT it starts. */
  method ProcessArgument(src: string, f: ScalarFunction, tok: Token, lex: Lexer) returns (text: string)
    requires lex.Valid() && lex.State().queue != [] && tok == lex.State().Head()
    requires tok.kind != RCURLY && tok.kind != EOS && tok.kind != INVALID
    modifies lex
    ensures lex.Valid() && lex.State().Size() < old(lex.State().Size())
    ensures var r := FunctionLoop(src, f, lex.State());
            FunctionLoop(src, f, old(lex.State())) == Out(text + r.text, r.lex)
    decreases lex.State().Size(), 3
  {
    if tok.kind == LCURLY {
      text := ProcessNested(src, lex);
    } else if tok.kind == Scalar(EXTRACT) {
      text := ProcessFunction(src, lex);
    } else {
      text := ArgumentText(f, tok);
      var _ := lex.Consume();
    }
  }

  method ProcessDate(src: string, lex: Lexer) returns (result: string)
    requires lex.Valid()
    modifies lex
    ensures lex.Valid()
    ensures Out(result, lex.State())
         == Literal(src, old(lex.State()).Head().literal, old(lex.State()))
  {
    var data := lex.ConsumeExpected(STRING);
    result := if data.kind == INVALID then src else data.literal;
  }

  method ProcessDateTime(src: string, lex: Lexer) returns (result: string)
    requires lex.Valid()
    modifies lex
    ensures lex.Valid()
    ensures Out(result, lex.State())
         == Literal(src, WithoutMilliseconds(old(lex.State()).Head().literal), old(lex.State()))
  {
    var data := lex.ConsumeExpected(STRING);
    if data.kind == INVALID {
      result := src;
    } else {
      result := RemoveMilliseconds(data.literal);
    }
  }

  method RemoveMilliseconds(token: string) returns (result: string)
    ensures result == WithoutMilliseconds(token)
  {
    if token == "" {
      return "";
    }
    var p := |token| - 1;
    var dot := 0;
    var quoted := token[p] == '\'';
    if quoted {
      if p == 0 {
        return token;
      }
      p := p - 1;
    }
    ghost var last := p;
    while 0 < p
      invariant 0 <= p <= last && (dot == 0 || p < dot)
      invariant FractionDot(token, p, dot) == FractionDot(token, last, 0)
    {
      if IsDigit(token[p]) {
      } else if token[p] == '.' {
        if dot != 0 {
          return token;
        }
        dot := p;
      } else {
        if dot != 0 {
          return token[..dot] + if quoted then "'" else "";
        }
        return token;
      }
      p := p - 1;
    }
    result := token;
  }

  method ProcessNested(src: string, lex: Lexer) returns (result: string)
    requires lex.Valid()
    modifies lex
    ensures lex.Valid() && Out(result, lex.State()) == Nested(src, old(lex.State()))
    decreases lex.State().Size(), 2
  {
    lex.SetEmitSpaces(false);
    result := ProcessEscapeSequencesImpl(src, lex);
    lex.SetEmitSpaces(true);
  }

  method ProcessEscapeSequencesImpl(src: string, lex: Lexer) returns (result: string)
    requires lex.Valid()
    modifies lex
    ensures lex.Valid() && Out(result, lex.State()) == Escape(src, old(lex.State()))
    decreases lex.State().Size(), 1
  {
    result := "";
    var matched := lex.Match(LCURLY);
    if !matched {
      return src;
    }
    ghost var size := lex.State().Size();
    while true
      invariant lex.Valid() && lex.State().Size() <= size
      invariant EscapeLoop(src, result, lex.State()) == Escape(src, old(lex.State()))
      decreases lex.State().Size()
    {
      SkipBlanks(lex);
      var tok := lex.Consume();
      if tok.kind == FN {
        var text := ProcessFunction(src, lex);
        result := result + text;
      } else if tok.kind == D {
        var text := ProcessDate(src, lex);
        result := result + text;
      } else if tok.kind == TS {
        var text := ProcessDateTime(src, lex);
        result := result + text;
      } else if tok.kind == RCURLY {
        return;
      } else {
        return src;
      }
    }
  }

  method ProcessEscapeSequences(src: string) returns (result: string)
    requires Lexable(src, 0)
    ensures result == RewriteSequence(src)
  {
    var lex := new Lexer(src);
    result := ProcessEscapeSequencesImpl(src, lex);
  }
}
