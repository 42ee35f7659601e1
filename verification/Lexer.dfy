/** The lexer: a cursor over a text, a queue of tokens already recognised and a switch that says
    whether blanks are tokens. */
module Lexer {
  import opened Chars
  import opened Tokens
  import TokenForms

  datatype Lexed = Lexed(token: Token, end: nat)

  /** The token `NextToken` returns at position `p`, and the position it moves to. */
  function Next(text: string, p: nat, emit: bool): (r: Lexed)
    ensures p <= r.end
    ensures p <= |text| + 1 ==> r.end <= |text| + 1
    decreases |text| - p
  {
    if |text| <= p then Lexed(END_OF_TEXT, p)
    else if IsBlank(text[p]) && !emit then Next(text, p + 1, emit)
    else
      var l := LexemeAt(text, p);
      if l.kind == EOS then Lexed(END_OF_TEXT, l.end) else Lexed(Token(l.kind, text[p..l.end]), l.end)
  }

  lemma {:induction false} NextAt(text: string, p: nat, emit: bool)
    ensures Next(text, p, emit)
         == if |text| <= p then Lexed(END_OF_TEXT, p)
            else if IsBlank(text[p]) && !emit then Next(text, p + 1, emit)
            else if LexemeAt(text, p).kind == EOS then Lexed(END_OF_TEXT, LexemeAt(text, p).end)
            else Lexed(Token(LexemeAt(text, p).kind, text[p..LexemeAt(text, p).end]), LexemeAt(text, p).end)
  {
  }

  lemma {:induction false} BlankAt(text: string, p: nat)
    requires p < |text| && IsBlank(text[p])
    ensures LexemeAt(text, p) == Lexeme(SPACE, p + 1)
  {
  }

  /** Reading from `p` on comes to an end: every token moves the cursor. */
  predicate ReadingEnds(text: string, p: nat)
    decreases |text| - p
  {
    var r := Next(text, p, true);
    r.token.kind == EOS || (p < r.end && ReadingEnds(text, r.end))
  }

  /** A text that can be read from `p` on; one without a vertical tab always can. */
  predicate Lexable(text: string, p: nat) {
    VERTICAL_TAB !in text || ReadingEnds(text, p)
  }

  /** Every token from `p` on, blanks included. */
  function TokensFrom(text: string, p: nat): seq<Token>
    requires Lexable(text, p)
    decreases |text| - p
  {
    var r := Next(text, p, true);
    if r.token.kind == EOS then [] else [r.token] + TokensFrom(text, r.end)
  }

  /** Taking one token off a token stream: blanks are skipped unless they are emitted, and an
      exhausted stream yields EOS for ever. */
  function Pull(rest: seq<Token>, emit: bool): (r: (Token, seq<Token>))
    ensures |r.1| <= |rest|
    ensures r.0.kind != EOS ==> |r.1| < |rest|
  {
    if rest == [] then (END_OF_TEXT, [])
    else if !emit && rest[0].kind == SPACE then Pull(rest[1..], emit)
    else (rest[0], rest[1..])
  }

  function CountTokens(queue: seq<Token>): nat
  {
    if queue == [] then 0 else (if queue[0].kind == EOS then 0 else 1) + CountTokens(queue[1..])
  }

  lemma {:induction false} CountTokensAppend(queue: seq<Token>, t: Token)
    ensures CountTokens(queue + [t]) == CountTokens(queue) + if t.kind == EOS then 0 else 1
  {
    if queue == [] {
    } else {
      assert (queue + [t])[1..] == queue[1..] + [t];
      CountTokensAppend(queue[1..], t);
    }
  }

  /** What a lexer still has to say: the tokens looked at already, the tokens of the text not yet
      read, and the emit switch, which governs the latter only. */
  datatype LexState = LexState(queue: seq<Token>, rest: seq<Token>, emit: bool) {
    /** Tokens not consumed yet; the termination measure of the whole rewriter. */
    function Size(): nat {
      |rest| + CountTokens(queue)
    }

    /** After reading one more token into the queue. */
    function Pulled(): (s: LexState)
      ensures |s.queue| == |queue| + 1 && s.Size() <= Size() && s.emit == emit
    {
      var (t, r) := Pull(rest, emit);
      CountTokensAppend(queue, t);
      LexState(queue + [t], r, emit)
    }

    function Peeked(): (s: LexState)
      ensures s.queue != [] && s.Size() <= Size() && s.emit == emit
    {
      if queue == [] then Pulled() else this
    }

    /** After looking ahead so far that `n` tokens are queued. */
    function Filled(n: nat): (s: LexState)
      ensures n <= |s.queue| && s.Size() <= Size() && s.emit == emit
      ensures n == 1 ==> s == Peeked()
      decreases n - |queue|
    {
      if n <= |queue| then this else Pulled().Filled(n)
    }

    function Head(): Token { Peeked().queue[0] }

    function Popped(): (s: LexState)
      ensures s.Size() <= Size() && s.emit == emit
      ensures Head().kind != EOS ==> s.Size() < Size()
    {
      var s := Peeked();
      s.(queue := s.queue[1..])
    }
  }

  /** Reading characters and reading the token stream agree, in either mode. */
  lemma {:induction false} NextIsPull(text: string, p: nat, emit: bool)
    requires Lexable(text, p)
    ensures var r := Next(text, p, emit);
            && Lexable(text, r.end)
            && (r.token, TokensFrom(text, r.end)) == Pull(TokensFrom(text, p), emit)
    decreases |text| - p
  {
    var rest := TokensFrom(text, p);
    assert rest != [] ==> rest[1..] == TokensFrom(text, Next(text, p, true).end);
    if p < |text| && IsBlank(text[p]) && !emit {
      NextIsPull(text, p + 1, emit);
    }
  }

  class Lexer {
    const text: string
    var cur: nat
    var readed: seq<Token>
    var emitSpace: bool

    ghost predicate Valid()
      reads this
    {
      cur <= |text| + 1 && Lexable(text, cur)
    }

    ghost function State(): LexState
      requires Valid()
      reads this
    {
      LexState(readed, TokensFrom(text, cur), emitSpace)
    }

    constructor (text: string)
      requires Lexable(text, 0)
      ensures Valid() && this.text == text
      ensures State() == LexState([], TokensFrom(text, 0), false)
    {
      this.text := text;
      cur, readed, emitSpace := 0, [], false;
    }

    method SetEmitSpaces(value: bool)
      requires Valid()
      modifies this`emitSpace
      ensures Valid() && State() == old(State()).(emit := value)
    {
      emitSpace := value;
    }

    /** Returns the next token of the input stream. */
    method Consume() returns (token: Token)
      requires Valid()
      modifies this`cur, this`readed
      ensures Valid() && token == old(State().Head()) && State() == old(State().Popped())
    {
      if readed != [] {
        token := readed[0];
        readed := readed[1..];
        return;
      }
      token := NextToken();
    }

    /** Returns the next token if it has the expected kind, an INVALID one otherwise. */
    method ConsumeExpected(expected: TokenType) returns (token: Token)
      requires Valid()
      modifies this`cur, this`readed
      ensures Valid()
      ensures if old(State().Head()).kind == expected
              then token == old(State().Head()) && State() == old(State().Popped())
              else token == Token(INVALID, "") && State() == old(State().Peeked())
    {
      if readed == [] {
        var t := NextToken();
        readed := readed + [t];
      }
      if readed[0].kind == expected {
        token := readed[0];
        readed := readed[1..];
        return;
      }
      token := Token(INVALID, "");
    }

    /** Looks at the token at position `n` without consuming anything. */
    method LookAhead(n: nat) returns (token: Token)
      requires Valid()
      modifies this`cur, this`readed
      ensures Valid() && State() == old(State().Filled(n + 1)) && token == State().queue[n]
    {
      while |readed| < n + 1
        invariant Valid() && State().Filled(n + 1) == old(State().Filled(n + 1))
        decreases n + 1 - |readed|
      {
        var t := NextToken();
        readed := readed + [t];
      }
      token := readed[n];
    }

    /** Skips the next token if it has the expected kind. */
    method Match(expected: TokenType) returns (matched: bool)
      requires Valid()
      modifies this`cur, this`readed
      ensures Valid() && matched == (old(State().Head()).kind == expected)
      ensures State() == if matched then old(State().Popped()) else old(State().Peeked())
    {
      if readed == [] {
        var t := NextToken();
        readed := readed + [t];
      }
      assert State() == old(State().Peeked());
      if readed[0].kind != expected {
        return false;
      }
      var _ := Consume();
      return true;
    }

    method Peek() returns (token: Token)
      requires Valid()
      modifies this`cur, this`readed
      ensures Valid() && token == old(State().Head()) && State() == old(State().Peeked())
    {
      token := LookAhead(0);
    }

    method NextToken() returns (token: Token)
      requires Valid()
      modifies this`cur
      ensures Valid() && Lexed(token, cur) == Next(text, old(cur), emitSpace)
      ensures (token, State().rest) == Pull(old(State()).rest, emitSpace)
    {
      NextIsPull(text, cur, emitSpace);
      hide Next, LexemeAt, Pull, TokensFrom, ReadingEnds;
      ghost var start := cur;
      while cur < |text|
        invariant cur <= |text| + 1
        invariant Next(text, cur, emitSpace) == Next(text, start, emitSpace)
      {
        NextAt(text, cur, emitSpace);
        if IsBlank(text[cur]) {
          if emitSpace {
            BlankAt(text, cur);
            token := MakeToken(SPACE, 1);
            return;
          }
        } else {
          token := ReadToken();
          if token.kind != EOS {
            return;
          }
        }
        cur := cur + 1;
      }
      NextAt(text, cur, emitSpace);
      token := END_OF_TEXT;
    }

    /** A token that is no blank; EOS if it is an unterminated `"`. */
    method ReadToken() returns (token: Token)
      requires Valid() && cur < |text| && !IsBlank(text[cur])
      modifies this`cur
      ensures var l := LexemeAt(text, old(cur));
              if l.kind == EOS then cur == |text| && token == END_OF_TEXT
              else cur == l.end && token == Token(l.kind, text[old(cur)..l.end])
    {
      if text[cur] == '(' {
        token := MakeToken(LPARENT, 1);
      } else if text[cur] == ')' {
        token := MakeToken(RPARENT, 1);
      } else if text[cur] == '{' {
        token := MakeToken(LCURLY, 1);
      } else if text[cur] == '}' {
        token := MakeToken(RCURLY, 1);
      } else if text[cur] == ',' {
        token := MakeToken(COMMA, 1);
      } else {
        token := ReadDefault();
      }
    }

    /** A token of length `len` at the current position, which it moves behind the token. */
    method MakeToken(kind: TokenType, len: nat) returns (token: Token)
      requires Valid() && cur + len <= |text|
      modifies this`cur
      ensures cur == old(cur) + len && token == Token(kind, text[old(cur)..cur])
    {
      token := Token(kind, text[cur..cur + len]);
      cur := cur + len;
    }

    /** A token that is neither a blank nor a delimiter; EOS if it is an unterminated `"`. */
    method ReadDefault() returns (token: Token)
      requires Valid() && cur < |text|
      modifies this`cur
      ensures var l := DefaultLexemeAt(text, old(cur));
              if l.kind == EOS then cur == |text| && token == END_OF_TEXT
              else cur == l.end && token == Token(l.kind, text[old(cur)..l.end])
    {
      var st := cur;
      if text[cur] == '\'' {
        token := ReadString();
      } else if text[cur] == '"' {
        token := ReadQuoted();
      } else if StartsIdent(text[cur]) {
        token := ReadIdent();
      } else if StartsNumber(text[cur]) {
        token := ReadNumber();
      } else {
        while cur < |text| && !IsSpace(text[cur])
          invariant st <= cur <= |text| && OtherEnd(text, cur) == OtherEnd(text, st)
        {
          cur := cur + 1;
        }
        token := Token(OTHER, text[st..cur]);
      }
    }

    method ReadIdent() returns (token: Token)
      requires Valid() && cur < |text|
      modifies this`cur
      ensures cur == IdentEnd(text, old(cur) + 1)
      ensures token == Token(LookupIdent(ToUpper(text[old(cur)..cur])), text[old(cur)..cur])
      ensures TokenForms.NameForm(text, old(cur), Lexeme(token.kind, cur))
    {
      TokenForms.NameScanned(text, cur, cur + 1);
      var st := cur;
      cur := cur + 1;
      while cur < |text| && IsIdentChar(text[cur])
        invariant st < cur <= |text| && IdentEnd(text, cur) == IdentEnd(text, st + 1)
      {
        cur := cur + 1;
      }
      token := Token(LookupIdent(ToUpper(text[st..cur])), text[st..cur]);
    }

    /** Reads a string: it ends behind the first quote that no backslash escapes. */
    method ReadString() returns (token: Token)
      requires Valid() && cur < |text|
      modifies this`cur
      ensures var l := ScanString(text, old(cur) + 1, false);
              cur == l.end && token == Token(l.kind, text[old(cur)..l.end])
      ensures TokenForms.StringForm(text, old(cur) + 1, Lexeme(token.kind, cur))
    {
      TokenForms.StringScanned(text, cur + 1, cur + 1);
      hide TokenForms.StringForm;
      var st := cur;
      var hasSlash := false;
      cur := cur + 1;
      while cur < |text|
        invariant st < cur <= |text|
        invariant ScanString(text, cur, hasSlash) == ScanString(text, st + 1, false)
      {
        if text[cur] == '\\' && !hasSlash {
          hasSlash := true;
        } else if text[cur] == '\'' && !hasSlash {
          cur := cur + 1;
          return Token(STRING, text[st..cur]);
        } else {
          hasSlash := false;
        }
        cur := cur + 1;
      }
      token := Token(INVALID, text[st..cur]);
    }

    /** Reads an identifier in double quotes; running off the end of the text yields EOS. */
    method ReadQuoted() returns (token: Token)
      requires Valid() && cur < |text|
      modifies this`cur
      ensures var l := ScanQuoted(text, old(cur) + 1, true);
              if l.kind == EOS then cur == |text| && token == END_OF_TEXT
              else cur == l.end && token == Token(l.kind, text[old(cur)..l.end])
    {
      hide Lexable, LexemeAt;
      var st := cur;
      var insideQuotes := true;
      cur := cur + 1;
      while cur < |text|
        invariant st < cur <= |text|
        invariant ScanQuoted(text, cur, insideQuotes) == ScanQuoted(text, st + 1, true)
      {
        if text[cur] == '"' {
          insideQuotes := !insideQuotes;
          if At(text, cur + 1) == '.' {
            cur := cur + 2;
            continue;
          } else if !insideQuotes {
            cur := cur + 1;
            return Token(IDENT, text[st..cur]);
          }
          cur := cur + 1;
        }
        if !IsIdentChar(At(text, cur)) {
          return Token(INVALID, text[st..cur]);
        }
        cur := cur + 1;
      }
      token := END_OF_TEXT;
    }

    method ReadNumber() returns (token: Token)
      requires Valid() && cur < |text|
      modifies this`cur
      ensures var l := ScanNumber(text, old(cur) + 1, text[old(cur)] == '.', text[old(cur)] == '-');
              cur == l.end && token == Token(l.kind, text[old(cur)..l.end])
      ensures TokenForms.NumberForm(text, old(cur), Lexeme(token.kind, cur))
    {
      assert text[cur..cur + 1] == [text[cur]];
      TokenForms.NumberScanned(text, cur, cur + 1);
      hide TokenForms.NumberForm;
      var st := cur;
      var hasDot := text[cur] == '.';
      var hasMinus := text[cur] == '-';
      cur := cur + 1;
      while cur < |text|
        invariant st < cur <= |text|
        invariant ScanNumber(text, cur, hasDot, hasMinus)
               == ScanNumber(text, st + 1, text[st] == '.', text[st] == '-')
      {
        if text[cur] == '.' {
          if hasDot {
            return Token(INVALID, text[st..cur]);
          }
          hasDot := true;
        } else if text[cur] == '-' && hasMinus {
          return Token(INVALID, text[st..cur]);
        } else if !IsDigit(text[cur]) {
          break;
        }
        cur := cur + 1;
      }
      token := Token(NUMBER, text[st..cur]);
    }
  }
}
