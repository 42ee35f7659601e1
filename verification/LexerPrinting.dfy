/** When a printed token sequence is read back as itself.

    A token ends where it does because of its own characters and the one that follows, so whether
    tokens survive printing can be judged pair by pair. */
module LexerPrinting {
  import opened Chars
  import opened Tokens
  import opened Lexer
  import opened LexerProperties

  /** From `p` in `x` and `q` in `y` the same `n` characters follow, and behind them the same character
      or both ends. */
  predicate Agree(x: string, p: nat, y: string, q: nat, n: nat) {
    && p + n <= |x| && q + n <= |y|
    && (forall k :: p <= k < p + n ==> x[k] == y[k - p + q])
    && (p + n == |x| <==> q + n == |y|)
    && (p + n < |x| ==> x[p + n] == y[q + n])
  }

  /** Where `l` was found from `p`, the same is found from `q`. */
  function Moved(l: Lexeme, p: nat, q: nat): Lexeme
    requires p <= l.end
  {
    Lexeme(l.kind, l.end - p + q)
  }

  lemma {:induction false} ScanStringLocal(x: string, p: nat, y: string, q: nat, n: nat, slash: bool)
    requires Agree(x, p, y, q, n) && ScanString(x, p, slash).end <= p + n
    ensures ScanString(y, q, slash) == Moved(ScanString(x, p, slash), p, q)
    decreases n
  {
    if n != 0 {
      if x[p] != '\'' || slash {
        Shrink(x, p, y, q, n, 1);
        ScanStringLocal(x, p + 1, y, q + 1, n - 1, x[p] == '\\' && !slash);
      }
    }
  }

  lemma {:induction false} Shrink(x: string, p: nat, y: string, q: nat, n: nat, k: nat)
    requires Agree(x, p, y, q, n) && k <= n
    ensures Agree(x, p + k, y, q + k, n - k)
  {
  }

  lemma {:induction false} ScanQuotedLocal(x: string, p: nat, y: string, q: nat, n: nat, inside: bool)
    requires Agree(x, p, y, q, n) && ScanQuoted(x, p, inside).end <= p + n
    ensures ScanQuoted(y, q, inside) == Moved(ScanQuoted(x, p, inside), p, q)
    decreases n
  {
    if n != 0 {
      assert 1 < n ==> x[p + 1] == y[q + 1];
      assert At(x, p + 1) == At(y, q + 1);
      if x[p] != '"' && IsIdentChar(x[p]) {
        Shrink(x, p, y, q, n, 1);
        ScanQuotedLocal(x, p + 1, y, q + 1, n - 1, inside);
      } else if x[p] == '"' && (At(x, p + 1) == '.' || (!inside && IsIdentChar(At(x, p + 1)))) {
        assert 2 <= n;
        Shrink(x, p, y, q, n, 2);
        ScanQuotedLocal(x, p + 2, y, q + 2, n - 2, !inside);
      }
    }
  }

  lemma {:induction false} ScanNumberLocal(x: string, p: nat, y: string, q: nat, n: nat, dot: bool, minus: bool)
    requires Agree(x, p, y, q, n) && ScanNumber(x, p, dot, minus).end <= p + n
    ensures ScanNumber(y, q, dot, minus) == Moved(ScanNumber(x, p, dot, minus), p, q)
    decreases n
  {
    if n != 0 {
      if IsDigit(x[p]) || (x[p] == '.' && !dot) {
        Shrink(x, p, y, q, n, 1);
        ScanNumberLocal(x, p + 1, y, q + 1, n - 1, dot || x[p] == '.', minus);
      }
    }
  }

  lemma {:induction false} IdentEndLocal(x: string, p: nat, y: string, q: nat, n: nat)
    requires Agree(x, p, y, q, n) && IdentEnd(x, p) <= p + n
    ensures IdentEnd(y, q) - q == IdentEnd(x, p) - p
    decreases n
  {
    if n != 0 {
      if IsIdentChar(x[p]) {
        Shrink(x, p, y, q, n, 1);
        IdentEndLocal(x, p + 1, y, q + 1, n - 1);
      }
    }
  }

  lemma {:induction false} OtherEndLocal(x: string, p: nat, y: string, q: nat, n: nat)
    requires Agree(x, p, y, q, n) && OtherEnd(x, p) <= p + n
    ensures OtherEnd(y, q) - q == OtherEnd(x, p) - p
    decreases n
  {
    if n != 0 {
      if !IsSpace(x[p]) {
        Shrink(x, p, y, q, n, 1);
        OtherEndLocal(x, p + 1, y, q + 1, n - 1);
      }
    }
  }

  lemma {:induction false} WordLocal(x: string, p: nat, y: string, q: nat, n: nat)
    requires 0 < n && Agree(x, p, y, q, n) && IdentEnd(x, p + 1) <= p + n
    ensures IdentEnd(y, q + 1) - q == IdentEnd(x, p + 1) - p
    ensures x[p..IdentEnd(x, p + 1)] == y[q..IdentEnd(y, q + 1)]
  {
    Shrink(x, p, y, q, n, 1);
    IdentEndLocal(x, p + 1, y, q + 1, n - 1);
  }

  lemma {:induction false} DefaultLocal(x: string, p: nat, y: string, q: nat, n: nat)
    requires 0 < n && Agree(x, p, y, q, n) && DefaultLexemeAt(x, p).end <= p + n
    ensures DefaultLexemeAt(y, q) == Moved(DefaultLexemeAt(x, p), p, q)
  {
    var c := x[p];
    assert c == y[q];
    if c == '\'' || c == '"' {
      QuotesLocal(x, p, y, q, n);
    } else if StartsIdent(c) {
      WordLocal(x, p, y, q, n);
    } else if StartsNumber(c) {
      Shrink(x, p, y, q, n, 1);
      ScanNumberLocal(x, p + 1, y, q + 1, n - 1, c == '.', c == '-');
    } else {
      OtherLocal(x, p, y, q, n);
    }
  }

  lemma {:induction false} OtherLocal(x: string, p: nat, y: string, q: nat, n: nat)
    requires 0 < n && Agree(x, p, y, q, n) && DefaultLexemeAt(x, p).end <= p + n
    requires x[p] != '\'' && x[p] != '"' && !StartsIdent(x[p]) && !StartsNumber(x[p])
    ensures DefaultLexemeAt(y, q) == Moved(DefaultLexemeAt(x, p), p, q)
  {
    assert x[p] == y[q];
    OtherEndLocal(x, p, y, q, n);
  }

  lemma {:induction false} QuotesLocal(x: string, p: nat, y: string, q: nat, n: nat)
    requires 0 < n && Agree(x, p, y, q, n) && DefaultLexemeAt(x, p).end <= p + n && (x[p] == '\'' || x[p] == '"')
    ensures DefaultLexemeAt(y, q) == Moved(DefaultLexemeAt(x, p), p, q)
  {
    assert x[p] == y[q];
    Shrink(x, p, y, q, n, 1);
    if x[p] == '\'' {
      ScanStringLocal(x, p + 1, y, q + 1, n - 1, false);
    } else {
      ScanQuotedLocal(x, p + 1, y, q + 1, n - 1, true);
    }
  }

  /** A token depends on its own characters and the next one only. */
  lemma {:induction false} LexemeLocal(x: string, p: nat, y: string, q: nat, n: nat)
    requires 0 < n && Agree(x, p, y, q, n) && LexemeAt(x, p).end <= p + n
    ensures LexemeAt(y, q) == Moved(LexemeAt(x, p), p, q)
  {
    assert x[p] == y[q];
    if !IsBlank(x[p]) && x[p] !in "(){}," {
      DefaultLocal(x, p, y, q, n);
    }
  }

  function FirstOf(s: string): string { if s == "" then "" else [s[0]] }

  /** In front of `next`, at most one character, the token is read back as itself. */
  predicate StandsAlone(t: Token, next: string) {
    t.literal != "" && LexemeAt(t.literal + next, 0) == Lexeme(t.kind, |t.literal|)
  }

  predicate Separated(ts: seq<Token>) {
    ts == [] || (StandsAlone(ts[0], FirstOf(Flatten(ts[1..]))) && Separated(ts[1..]))
  }

  lemma {:induction false} StandsAloneHere(text: string, p: nat, t: Token, rest: string)
    requires p <= |text| && text[p..] == t.literal + rest && t.literal != ""
    ensures StandsAlone(t, FirstOf(rest)) <==> LexemeAt(text, p) == Lexeme(t.kind, p + |t.literal|)
  {
    var x, n := t.literal + FirstOf(rest), |t.literal|;
    assert |text| - p == n + |rest|;
    assert forall k :: p <= k < |text| ==> text[k] == text[p..][k - p];
    assert rest != "" ==> x[n] == rest[0] == text[p..][n];
    if StandsAlone(t, FirstOf(rest)) {
      LexemeLocal(x, 0, text, p, n);
    } else if LexemeAt(text, p) == Lexeme(t.kind, p + n) {
      LexemeLocal(text, p, x, 0, n);
    }
  }

  lemma {:induction false} PrintedStep(text: string, p: nat, t: Token, rest: string)
    requires p <= |text| && text[p..] == t.literal + rest
    ensures p + |t.literal| <= |text| && text[p..p + |t.literal|] == t.literal && text[p + |t.literal|..] == rest
    ensures StandsAlone(t, FirstOf(rest)) <==>
              t.literal != "" && LexemeAt(text, p) == Lexeme(t.kind, p + |t.literal|)
  {
    StartsWith(text, p, t.literal, rest);
    if t.literal != "" {
      StandsAloneHere(text, p, t, rest);
    }
  }

  /** Printing and reading tokens: a sequence is what its own text is read as exactly if each of its
      tokens stands alone in front of the next. */
  lemma {:induction false} PrintedTokens(text: string, p: nat, ts: seq<Token>, all: seq<Token>)
    requires VERTICAL_TAB !in text && p <= |text| && text[p..] == Flatten(ts)
    requires all == TokensFrom(text, p)
    ensures Separated(ts) <==> all == ts
    decreases |ts|
  {
    if ts == [] {
      assert |text[p..]| == 0;
      NothingToRead(text, p);
    } else {
      var q := p + |ts[0].literal|;
      var rest := TokensFrom(text, q);
      PrintedOne(text, p, ts, all, rest);
      if ts[0].literal != "" {
        PrintedTokens(text, q, ts[1..], rest);
      }
    }
  }

  /** A text whose tokens stand apart is read as them. */
  lemma {:induction false} ReadBack(text: string, ts: seq<Token>)
    requires VERTICAL_TAB !in text && Separated(ts) && Flatten(ts) == text
    ensures TokensFrom(text, 0) == ts
  {
    assert text[0..] == text;
    PrintedTokens(text, 0, ts, TokensFrom(text, 0));
  }

  lemma {:induction false} NothingToRead(text: string, p: nat)
    requires Lexable(text, p) && |text| <= p
    ensures TokensFrom(text, p) == []
  {
  }

  /** The first token of a printed sequence. */
  lemma {:induction false} PrintedOne(text: string, p: nat, ts: seq<Token>, all: seq<Token>, rest: seq<Token>)
    requires VERTICAL_TAB !in text && p <= |text| && ts != [] && text[p..] == Flatten(ts)
    requires all == TokensFrom(text, p) && rest == TokensFrom(text, p + |ts[0].literal|)
    ensures p + |ts[0].literal| <= |text| && text[p + |ts[0].literal|..] == Flatten(ts[1..])
    ensures all == ts <==> StandsAlone(ts[0], FirstOf(Flatten(ts[1..]))) && rest == ts[1..]
  {
    PrintedStep(text, p, ts[0], Flatten(ts[1..]));
    if p < |text| {
      PrintedHead(text, p, ts, all, rest);
    }
  }

  lemma {:induction false} TokensFromHead(text: string, p: nat)
    requires VERTICAL_TAB !in text && p < |text|
    ensures var l := LexemeAt(text, p);
            if l.kind == EOS then TokensFrom(text, p) == []
            else
              && p < l.end <= |text| && TokensFrom(text, p) != []
              && TokensFrom(text, p)[0] == Token(l.kind, text[p..l.end])
              && TokensFrom(text, p)[1..] == TokensFrom(text, l.end)
  {
  }

  lemma {:induction false} SameHeadAndTail(a: seq<Token>, b: seq<Token>)
    requires a != [] && b != []
    ensures a == b <==> a[0] == b[0] && a[1..] == b[1..]
  {
    assert a == [a[0]] + a[1..] && b == [b[0]] + b[1..];
  }

  /** Whether `all`, whose first token is the lexeme `l`, is `ts` shows at that lexeme. */
  lemma {:induction false} SameTokens(text: string, p: nat, l: Lexeme, all: seq<Token>, ts: seq<Token>)
    requires ts != [] && p + |ts[0].literal| <= |text| && text[p..p + |ts[0].literal|] == ts[0].literal
    requires all != [] && p < l.end <= |text| && all[0] == Token(l.kind, text[p..l.end])
    ensures all == ts <==>
              ts[0].literal != "" && l == Lexeme(ts[0].kind, p + |ts[0].literal|) && all[1..] == ts[1..]
  {
    SameHeadAndTail(all, ts);
    assert |text[p..l.end]| == l.end - p;
  }

  lemma {:induction false} PrintedHead(text: string, p: nat, ts: seq<Token>, all: seq<Token>, rest: seq<Token>)
    requires VERTICAL_TAB !in text && p < |text| && ts != []
    requires p + |ts[0].literal| <= |text| && text[p..p + |ts[0].literal|] == ts[0].literal
    requires all == TokensFrom(text, p) && rest == TokensFrom(text, p + |ts[0].literal|)
    ensures all == ts <==>
              && ts[0].literal != ""
              && LexemeAt(text, p) == Lexeme(ts[0].kind, p + |ts[0].literal|)
              && rest == ts[1..]
  {
    var l := LexemeAt(text, p);
    TokensFromHead(text, p);
    if l.kind != EOS {
      FirstIsLexeme(text, p, l, ts, all, rest, TokensFrom(text, l.end));
    }
  }

  lemma {:induction false} FirstIsLexeme(
      text: string, p: nat, l: Lexeme, ts: seq<Token>, all: seq<Token>, rest: seq<Token>, behind: seq<Token>)
    requires ts != [] && p + |ts[0].literal| <= |text| && text[p..p + |ts[0].literal|] == ts[0].literal
    requires all != [] && p < l.end <= |text| && all[0] == Token(l.kind, text[p..l.end]) && all[1..] == behind
    requires l.end == p + |ts[0].literal| ==> rest == behind
    ensures all == ts <==>
              ts[0].literal != "" && l == Lexeme(ts[0].kind, p + |ts[0].literal|) && rest == ts[1..]
  {
    SameTokens(text, p, l, all, ts);
  }
}
