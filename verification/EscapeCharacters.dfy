/** The rewriter writes no character that makes a lexer stand still: what it makes of a text without
    vertical tabs has none either, so the passes behind it terminate too. */
module EscapeCharacters {
  import opened Chars
  import opened FunctionDeclare
  import opened Tokens
  import opened Lexer
  import opened EscapeSequences

  predicate Clean(s: string) { VERTICAL_TAB !in s }

  predicate CleanTokens(ts: seq<Token>) {
    forall t <- ts :: Clean(t.literal)
  }

  predicate CleanState(s: LexState) {
    CleanTokens(s.queue) && CleanTokens(s.rest)
  }

  predicate CleanOut(r: Out) {
    Clean(r.text) && CleanState(r.lex)
  }

  lemma {:induction false} NamesClean(f: ScalarFunction)
    ensures Clean(ServerName(f))
  {
  }

  lemma {:induction false} UnitsClean(kind: TokenType)
    ensures Clean(UnitName(kind))
  {
  }

  lemma {:induction false} TokensFromClean(text: string, p: nat)
    requires Clean(text)
    ensures CleanTokens(TokensFrom(text, p))
    decreases |text| - p
  {
    var r := Next(text, p, true);
    if r.token.kind != EOS {
      assert p <= |text| ==> forall c <- r.token.literal :: c in text;
      TokensFromClean(text, r.end);
    }
  }

  lemma {:induction false} PullClean(rest: seq<Token>, emit: bool)
    requires CleanTokens(rest)
    ensures Clean(Pull(rest, emit).0.literal) && CleanTokens(Pull(rest, emit).1)
  {
    if rest != [] && !emit && rest[0].kind == SPACE {
      PullClean(rest[1..], emit);
    }
  }

  lemma {:induction false} StepClean(s: LexState)
    requires CleanState(s)
    ensures CleanState(s.Pulled()) && CleanState(s.Peeked()) && CleanState(s.Popped())
    ensures Clean(s.Head().literal)
  {
    PullClean(s.rest, s.emit);
    assert s.Head() in s.Peeked().queue;
  }

  lemma {:induction false} FilledClean(s: LexState, n: nat)
    requires CleanState(s)
    ensures CleanState(s.Filled(n))
    decreases n - |s.queue|
  {
    if |s.queue| < n {
      StepClean(s);
      FilledClean(s.Pulled(), n);
    }
  }

  lemma {:induction false} SkipSpacesClean(s: LexState)
    requires CleanState(s)
    ensures CleanState(SkipSpaces(s))
    decreases s.Size()
  {
    StepClean(s);
    if s.Head().kind == SPACE {
      SkipSpacesClean(s.Popped());
    }
  }

  lemma {:induction false} ParenthesesClean(src: string, s: LexState)
    requires Clean(src) && CleanState(s)
    ensures CleanOut(Parentheses(src, s))
    decreases s.(emit := true).Popped().Size(), 4
  {
    StepClean(s.(emit := true));
    ParenthesesLoopClean(src, s.(emit := true).Popped());
  }

  lemma {:induction false} ParenthesesLoopClean(src: string, s: LexState)
    requires Clean(src) && CleanState(s)
    ensures CleanOut(ParenthesesLoop(src, s))
    decreases s.Size(), 3
  {
    StepClean(s);
    var tok := s.Head();
    if tok.kind == LPARENT {
      ParenthesesClean(src, s.Peeked());
      ParenthesesLoopClean(src, Parentheses(src, s.Peeked()).lex);
    } else if tok.kind == LCURLY {
      NestedClean(src, s.Peeked());
      ParenthesesLoopClean(src, Nested(src, s.Peeked()).lex);
    } else if tok.kind != RPARENT && tok.kind != EOS && tok.kind != INVALID {
      ParenthesesLoopClean(src, s.Popped());
    }
  }

  lemma {:induction false} NestedClean(src: string, s: LexState)
    requires Clean(src) && CleanState(s)
    ensures CleanOut(Nested(src, s))
    decreases s.Size(), 2
  {
    EscapeClean(src, s.(emit := false));
  }

  lemma {:induction false} IdentOrFunctionClean(src: string, s: LexState)
    requires Clean(src) && CleanState(s)
    ensures CleanOut(IdentOrFunction(src, s))
    decreases s.Size(), 6
  {
    SkipSpacesClean(s);
    var s0 := SkipSpaces(s);
    if StartsOperand(s0.Head().kind) {
      OperandClean(src, s0);
      SkipSpacesClean(Operand(src, s0).lex);
    }
  }

  lemma {:induction false} OperandClean(src: string, s: LexState)
    requires Clean(src) && CleanState(s) && StartsOperand(s.Head().kind)
    ensures CleanOut(Operand(src, s))
    decreases s.Size(), 5
  {
    StepClean(s);
    var tok := s.Head();
    if tok.kind == LCURLY {
      NestedClean(src, s.Peeked());
    } else if tok.kind.Scalar? {
      NamesClean(tok.kind.f);
      ParenthesesClean(src, s.Popped());
    } else if tok.kind == LPARENT {
      ParenthesesClean(src, s.Peeked());
    } else if tok.kind == IDENT {
      FilledClean(s, 2);
      StepClean(s.Filled(2));
      if s.Filled(2).queue[1].kind == LPARENT {
        ParenthesesClean(src, s.Filled(2).Popped());
      }
    }
  }

  lemma {:induction false} TimestampAddClean(src: string, s: LexState)
    requires Clean(src) && CleanState(s)
    ensures CleanOut(TimestampAdd(src, s))
    decreases s.Size(), 8
  {
    StepClean(s);
    if s.Head().kind == LPARENT {
      var s1 := s.Popped();
      StepClean(s1);
      StepClean(s1.Popped());
      AddedIntervalClean(src, s1.Head().kind, s1.Popped().Popped());
    }
  }

  lemma {:induction false} AddedIntervalClean(src: string, unit: TokenType, s: LexState)
    requires Clean(src) && CleanState(s)
    ensures CleanOut(AddedInterval(src, unit, s))
    decreases s.Size(), 7
  {
    IdentOrFunctionClean(src, s);
    var amount := IdentOrFunction(src, s);
    SkipSpacesClean(amount.lex);
    var s1 := SkipSpaces(amount.lex);
    StepClean(s1);
    IdentOrFunctionClean(src, s1.Popped());
    var date := IdentOrFunction(src, s1.Popped());
    SkipSpacesClean(date.lex);
    StepClean(SkipSpaces(date.lex));
    NamesClean(TIMESTAMPADD);
    UnitsClean(unit);
    IntervalTextClean(ServerName(TIMESTAMPADD), UnitName(unit), amount.text, date.text);
  }

  lemma {:induction false} IntervalTextClean(name: string, unit: string, amount: string, date: string)
    requires Clean(name) && Clean(unit) && Clean(amount) && Clean(date)
    ensures Clean(name + "(" + unit + ", " + amount + ", " + date + ")")
  {
  }

  lemma {:induction false} CallTextsClean(a: string, b: string)
    requires Clean(a) && Clean(b)
    ensures Clean(PositionCall(a, b)) && Clean(TrimCall(a))
  {
  }

  lemma {:induction false} LocateClean(src: string, s: LexState)
    requires Clean(src) && CleanState(s)
    ensures CleanOut(Locate(src, s))
    decreases s.Size(), 7
  {
    StepClean(s);
    if s.Head().kind == LPARENT {
      IdentOrFunctionClean(src, s.Popped());
      var needle := IdentOrFunction(src, s.Popped());
      StepClean(needle.lex);
      IdentOrFunctionClean(src, needle.lex.Popped());
      var haystack := IdentOrFunction(src, needle.lex.Popped());
      StepClean(haystack.lex);
      IdentOrFunctionClean(src, haystack.lex.Popped());
      StepClean(IdentOrFunction(src, haystack.lex.Popped()).lex);
      CallTextsClean(haystack.text, needle.text);
    }
  }

  lemma {:induction false} LtrimClean(src: string, s: LexState)
    requires Clean(src) && CleanState(s)
    ensures CleanOut(Ltrim(src, s))
    decreases s.Size(), 7
  {
    StepClean(s);
    if s.Head().kind == LPARENT {
      IdentOrFunctionClean(src, s.Popped());
      StepClean(IdentOrFunction(src, s.Popped()).lex);
      CallTextsClean(IdentOrFunction(src, s.Popped()).text, "");
    }
  }

  lemma {:induction false} FunctionClean(src: string, s: LexState)
    requires Clean(src) && CleanState(s)
    ensures CleanOut(Function(src, s))
    decreases s.Size(), 9
  {
    StepClean(s);
    var fn, s1 := s.Head(), s.Popped();
    if fn.kind == Scalar(TIMESTAMPADD) {
      TimestampAddClean(src, s1);
    } else if fn.kind == LOCATE {
      LocateClean(src, s1);
    } else if fn.kind == LTRIM {
      LtrimClean(src, s1);
    } else if fn.kind.Scalar? {
      ArgumentsClean(src, fn.kind.f, s1);
    } else if fn.kind == CURRENT_TIMESTAMP {
      CurrentTimestampClean(src, s1);
    }
  }

  lemma {:induction false} CurrentTimestampClean(src: string, s: LexState)
    requires Clean(src) && CleanState(s)
    ensures CleanOut(CurrentTimestamp(src, s))
    decreases s.Size(), 5
  {
    StepClean(s);
    if s.Peeked().Head().kind == LPARENT {
      ParenthesesClean(src, s.Peeked());
    }
  }

  lemma {:induction false} ArgumentsClean(src: string, f: ScalarFunction, s: LexState)
    requires Clean(src) && CleanState(s)
    ensures CleanOut(Arguments(src, f, s))
    decreases s.Size(), 4
  {
    NamesClean(f);
    FunctionLoopClean(src, f, s.(emit := true));
  }

  lemma {:induction false} FunctionLoopClean(src: string, f: ScalarFunction, s: LexState)
    requires Clean(src) && CleanState(s)
    ensures CleanOut(FunctionLoop(src, f, s))
    decreases s.Size(), 3
  {
    StepClean(s);
    var tok := s.Head();
    if tok.kind == RCURLY || tok.kind == EOS || tok.kind == INVALID {
    } else if tok.kind == LCURLY {
      NestedClean(src, s.Peeked());
      FunctionLoopClean(src, f, Nested(src, s.Peeked()).lex);
    } else if tok.kind == Scalar(EXTRACT) {
      ArgumentsClean(src, EXTRACT, s.Popped());
      FunctionLoopClean(src, f, Arguments(src, EXTRACT, s.Popped()).lex);
    } else {
      UnitsClean(tok.kind);
      FunctionLoopClean(src, f, s.Popped());
    }
  }

  lemma {:induction false} WithoutMillisecondsClean(s: string)
    requires Clean(s)
    ensures Clean(WithoutMilliseconds(s))
  {
  }

  lemma {:induction false} ItemClean(src: string, key: TokenType, s: LexState)
    requires Clean(src) && CleanState(s)
    ensures CleanOut(Item(src, key, s))
    decreases s.Size(), 10
  {
    StepClean(s);
    if key == FN {
      FunctionClean(src, s);
    } else {
      WithoutMillisecondsClean(s.Head().literal);
    }
  }

  lemma {:induction false} EscapeClean(src: string, s: LexState)
    requires Clean(src) && CleanState(s)
    ensures CleanOut(Escape(src, s))
    decreases s.Size(), 1
  {
    StepClean(s);
    if s.Head().kind == LCURLY {
      EscapeLoopClean(src, "", s.Popped());
    }
  }

  lemma {:induction false} EscapeLoopClean(src: string, result: string, s: LexState)
    requires Clean(src) && Clean(result) && CleanState(s)
    ensures CleanOut(EscapeLoop(src, result, s))
    decreases s.Size(), 3
  {
    SkipSpacesClean(s);
    var s0 := SkipSpaces(s);
    StepClean(s0);
    if s0.Head().kind == FN || s0.Head().kind == D || s0.Head().kind == TS {
      ItemClean(src, s0.Head().kind, s0.Popped());
      var r := Item(src, s0.Head().kind, s0.Popped());
      EscapeLoopClean(src, result + r.text, r.lex);
    }
  }

  /** What becomes of a sequence without vertical tabs has none. */
  lemma {:induction false} RewriteSequenceClean(src: string)
    requires Clean(src)
    ensures Clean(RewriteSequence(src))
  {
    TokensFromClean(src, 0);
    EscapeClean(src, LexState([], TokensFrom(src, 0), false));
  }
}
