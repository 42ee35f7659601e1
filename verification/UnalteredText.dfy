/** When re-quoting leaves a query exactly as it is: only if no token is lost and none is converted.

    What is lost could only be double quotes, and what a conversion adds are double quotes; but they
    never stand in the same place. */
module UnalteredText {
  import Chars
  import opened Tokens
  import opened Lexer
  import opened LexerProperties
  import opened ColumnWalk
  import opened ColumnWalkExact
  import opened ColumnWalkProperties
  import opened RequotedText

  /** `kept` is `ts` without some of its tokens. */
  predicate Part(kept: seq<Token>, ts: seq<Token>) {
    || kept == []
    || (ts != [] && ((kept[0] == ts[0] && Part(kept[1..], ts[1..])) || Part(kept, ts[1..])))
  }

  lemma {:induction false} PartAll(ts: seq<Token>)
    ensures Part(ts, ts)
  {
    if ts != [] {
      PartAll(ts[1..]);
    }
  }

  lemma {:induction false} PartMore(t: Token, kept: seq<Token>, ts: seq<Token>)
    requires ts != [] && t == ts[0] && Part(kept, ts[1..])
    ensures Part([t] + kept, ts)
  {
    assert ([t] + kept)[1..] == kept;
  }

  lemma {:induction false} KeptIsPart(levels: Nest, blind: bool, ts: seq<Token>)
    ensures Part(Kept(levels, blind, ts), ts)
    decreases |ts|
  {
    if ts != [] {
      if levels.level < 0 {
        if levels.Inside? {
          KeptIsPart(Outer(levels), true, ts[1..]);
        }
      } else if !blind && IsSelect(ts[0]) {
        KeptFirstPart(Inside(0, levels), false, ts);
      } else if ts[0].kind == LPARENT {
        KeptFirstPart(levels.(level := levels.level + 1), false, ts);
      } else if ts[0].kind != RPARENT {
        KeptFirstPart(levels, false, ts);
      } else if 0 < levels.level {
        KeptFirstPart(levels.(level := levels.level - 1), false, ts);
      } else if levels.Inside? {
        KeptFirstPart(Outer(levels), true, ts);
      } else {
        PartMore(ts[0], [], ts);
        assert [ts[0]] + [] == [ts[0]];
      }
    }
  }

  lemma {:induction false} KeptFirstPart(levels: Nest, blind: bool, ts: seq<Token>)
    requires ts != []
    ensures Part([ts[0]] + Kept(levels, blind, ts[1..]), ts)
    decreases |ts|, 0
  {
    KeptIsPart(levels, blind, ts[1..]);
    PartMore(ts[0], Kept(levels, blind, ts[1..]), ts);
  }

  // ---- Leading double quotes

  /** How many double quotes the text starts with. */
  function Run(s: string): (n: nat)
    ensures n <= |s|
  {
    if s == "" || s[0] != '"' then 0 else 1 + Run(s[1..])
  }

  /** A text of nothing but double quotes. */
  predicate Quotes(s: string) { StripQuotes(s) == "" }

  lemma {:induction false} StripShorter(s: string)
    ensures |StripQuotes(s)| <= |s|
    ensures Quotes(s) <==> Run(s) == |s|
  {
    if s != "" {
      StripShorter(s[1..]);
    }
  }

  /** Behind a text of double quotes the run goes on, behind any other it does not. */
  lemma {:induction false} RunAppend(a: string, b: string)
    ensures Run(a + b) == if Quotes(a) then |a| + Run(b) else Run(a)
  {
    StripShorter(a);
    if a == "" {
      assert a + b == b;
    } else {
      assert (a + b)[1..] == a[1..] + b;
      if a[0] == '"' {
        RunAppend(a[1..], b);
      }
    }
  }

  /** Behind a text that holds more than quotes anything may follow. */
  lemma {:induction false} SameRun(front: string, x: string, y: string, s: string, r: string)
    requires s == front + x && r == front + y && !Quotes(front)
    requires Quotes(r) <==> Quotes(s)
    ensures Run(s) == Run(r)
  {
    RunAppend(front, x);
    RunAppend(front, y);
  }

  /** Converting a column leaves the quotes in front of it as they are. */
  lemma {:induction false} RequoteRun(s: string)
    ensures Run(Requote(s)) == Run(s) && (Quotes(Requote(s)) <==> Quotes(s))
  {
    hide PointAt, ColumnWordAt;
    RequoteKeepsText(s);
    var i := PointFrom(s, 0);
    if i < |s| {
      DotInside(s, i);
      var dot := i + 1 + ColumnWordAt(s, i + 1);
      var front, y := s[..dot], "\".\"" + s[dot + 1..];
      WordIsText(s, i);
      Chars.Concat3(front, "\".\"", s[dot + 1..]);
      SameRun(front, s[dot..], y, s, Requote(s));
    }
  }

  lemma {:induction false} DotInside(s: string, i: nat)
    requires PointAt(s, i)
    ensures i + 1 + ColumnWordAt(s, i + 1) < |s|
  {
  }

  lemma {:induction false} WordIsText(s: string, i: nat)
    requires PointAt(s, i)
    ensures !Quotes(s[..i + 1 + ColumnWordAt(s, i + 1)])
  {
    var n := ColumnWordAt(s, i + 1);
    var t := s[..i + 1 + n];
    var u := Chars.ToUpper(s);
    assert s[i + 1] != '"' by {
      assert u[i + 1..i + 1 + n][0] == u[i + 1];
    }
    if Quotes(t) {
      AllQuotes(t, i + 1);
    }
  }

  lemma {:induction false} AllQuotes(s: string, i: nat)
    requires i < |s| && Quotes(s)
    ensures s[i] == '"'
  {
    if s[0] == '"' && i != 0 {
      AllQuotes(s[1..], i - 1);
    }
  }

  // ---- Lost quotes and added quotes

  lemma {:induction false} PartShorter(kept: seq<Token>, ts: seq<Token>)
    requires Part(kept, ts)
    ensures |StripQuotes(Flatten(kept))| <= |StripQuotes(Flatten(ts))|
    decreases |ts|
  {
    if kept != [] {
      StripAppend(ts[0].literal, Flatten(ts[1..]));
      if kept[0] == ts[0] && Part(kept[1..], ts[1..]) {
        PartShorter(kept[1..], ts[1..]);
        StripAppend(ts[0].literal, Flatten(kept[1..]));
      } else {
        PartShorter(kept, ts[1..]);
      }
    }
  }

  /** `out` is written for part of the tokens `ts`, and of these and `tail`, which is not written at all,
      nothing but double quotes is lost. */
  predicate LosesQuotes(out: seq<Emission>, ts: seq<Token>, tail: string) {
    && Part(Toks(out), ts) && AllFaithful(out)
    && |StripQuotes(Flatten(Toks(out)))| == |StripQuotes(Flatten(ts))| + |StripQuotes(tail)|
  }

  predicate FirstKept(out: seq<Emission>, ts: seq<Token>) {
    out != [] && ts != [] && out[0].tok == ts[0] && Part(Toks(out[1..]), ts[1..])
  }

  lemma {:induction false} KeptToken(out: seq<Emission>, ts: seq<Token>, tail: string)
    requires LosesQuotes(out, ts, tail) && FirstKept(out, ts)
    ensures LosesQuotes(out[1..], ts[1..], tail) && Faithful(out[0])
  {
    assert Toks(out)[1..] == Toks(out[1..]);
    StripAppend(ts[0].literal, Flatten(ts[1..]));
    StripAppend(ts[0].literal, Flatten(Toks(out[1..])));
  }

  lemma {:induction false} LostToken(out: seq<Emission>, ts: seq<Token>, tail: string)
    requires LosesQuotes(out, ts, tail) && out != [] && !FirstKept(out, ts)
    ensures ts != [] && Quotes(ts[0].literal) && LosesQuotes(out, ts[1..], tail)
  {
    assert Toks(out)[0] == out[0].tok && Toks(out)[1..] == Toks(out[1..]);
    PartShorter(Toks(out), ts[1..]);
    StripAppend(ts[0].literal, Flatten(ts[1..]));
  }

  /** So no double quotes come to the front. */
  lemma {:induction false} RunOfPart(out: seq<Emission>, ts: seq<Token>, tail: string)
    requires LosesQuotes(out, ts, tail)
    ensures Run(Render(out)) <= Run(Flatten(ts) + tail)
    decreases |ts|
  {
    if out != [] {
      if FirstKept(out, ts) {
        KeptToken(out, ts, tail);
        RunOfPart(out[1..], ts[1..], tail);
        RunKept(out[0], Render(out[1..]), Flatten(ts[1..]) + tail);
      } else {
        LostToken(out, ts, tail);
        RunOfPart(out, ts[1..], tail);
        RunAppend(ts[0].literal, Flatten(ts[1..]) + tail);
      }
      Chars.Concat3(ts[0].literal, Flatten(ts[1..]), tail);
    }
  }

  lemma {:induction false} RunKept(e: Emission, a: string, b: string)
    requires Faithful(e) && Run(a) <= Run(b)
    ensures Run(e.text + a) <= Run(e.tok.literal + b)
  {
    RequoteRun(e.tok.literal);
    RunAppend(e.text, a);
    RunAppend(e.tok.literal, b);
    StripShorter(e.text);
    StripShorter(e.tok.literal);
  }

  predicate NoneEmpty(ts: seq<Token>) {
    forall i :: 0 <= i < |ts| ==> ts[i].literal != ""
  }

  /** A conversion shows at the dot. */
  lemma {:induction false} ConvertedDiffers(s: string, a: string, b: string)
    requires Requote(s) != s
    ensures Requote(s) + a != s + b
  {
    var dot := PointFrom(s, 0) + 1 + ColumnWordAt(s, PointFrom(s, 0) + 1);
    DotConverted(s, dot, Requote(s));
    assert (Requote(s) + a)[dot] == Requote(s)[dot];
    assert (s + b)[dot] == s[dot];
  }

  lemma {:induction false} DotConverted(s: string, dot: nat, r: string)
    requires r == Requote(s) != s && dot == PointFrom(s, 0) + 1 + ColumnWordAt(s, PointFrom(s, 0) + 1)
    ensures dot < |s| && s[dot] == '.' && dot < |r| && r[dot] == '"'
  {
    assert HasAt(s, dot, ".");
    DotAt(s, dot);
    Inserted(s[..dot], "\".\"", s[dot + 1..]);
  }

  lemma {:induction false} Inserted(a: string, b: string, c: string)
    requires b != ""
    ensures (a + b + c)[|a|] == b[0]
  {
  }

  /** If what is written is the text of the tokens and the tail, all of it is, and as it stands. */
  lemma {:induction false} Unaltered(out: seq<Emission>, ts: seq<Token>, tail: string)
    requires LosesQuotes(out, ts, tail) && NoneEmpty(ts) && Render(out) == Flatten(ts) + tail
    ensures Toks(out) == ts && tail == "" && Converted(out) == 0
    decreases |ts|
  {
    if ts != [] {
      Chars.Concat3(ts[0].literal, Flatten(ts[1..]), tail);
      if FirstKept(out, ts) {
        KeptToken(out, ts, tail);
        UnalteredFirst(out[0], Render(out[1..]), Flatten(ts[1..]) + tail);
        Unaltered(out[1..], ts[1..], tail);
        assert Toks(out) == [ts[0]] + Toks(out[1..]);
      } else if out != [] {
        LostToken(out, ts, tail);
        RunOfPart(out, ts[1..], tail);
        RunAppend(ts[0].literal, Flatten(ts[1..]) + tail);
        assert false;
      }
    }
  }

  lemma {:induction false} UnalteredFirst(e: Emission, a: string, b: string)
    requires Faithful(e) && e.text + a == e.tok.literal + b
    ensures e.text == e.tok.literal && a == b
  {
    if e.text != e.tok.literal {
      ConvertedDiffers(e.tok.literal, a, b);
    }
    assert a == (e.text + a)[|e.text|..] && b == (e.text + b)[|e.text|..];
  }

  lemma {:induction false} TokensNotEmpty(text: string, p: nat)
    requires Lexable(text, p)
    ensures NoneEmpty(TokensFrom(text, p))
    decreases |text| - p
  {
    var r := Next(text, p, true);
    if r.token.kind != EOS {
      NextTokenSlice(text, p);
      TokensNotEmpty(text, r.end);
    }
  }

  /** The tokens of a query that starts with SELECT, and what is left of them. */
  lemma {:induction false} QueryLosesQuotes(query: string)
    requires Lexable(query, 0)
    requires var ts := TokensFrom(query, 0); ts != [] && IsSelect(ts[0])
    requires UnquoteColumns(query) == query
    ensures var ts, end := TokensFrom(query, 0), LexedEnd(query, 0);
            end <= |query| && Flatten(ts) + query[end..] == query && LosesQuotes(Machine(ts).out, ts, query[end..])
  {
    var ts, end := TokensFrom(query, 0), LexedEnd(query, 0);
    TokensFromSpelled(query, 0);
    Lossless(query, 0);
    assert query == query[0..end] + query[end..];
    PartWritten(ts, Machine(ts).out);
    StripAppend(Flatten(ts), query[end..]);
  }

  lemma {:induction false} PartWritten(ts: seq<Token>, out: seq<Emission>)
    requires ts != [] && IsSelect(ts[0]) && Spelled(ts) && out == Machine(ts).out
    ensures Part(Toks(out), ts) && AllFaithful(out) && StripQuotes(Render(out)) == StripQuotes(Flatten(Toks(out)))
  {
    TokensWritten(ts);
    KeptFirstPart(Outermost(0), false, ts);
    MachineFaithful(ts);
    RenderKeepsText(out);
  }

  /** Re-quoting leaves a query exactly as it is if and only if it keeps all its tokens and converts none
      of them. */
  lemma {:induction false} RequotingIsIdentity(query: string)
    requires Lexable(query, 0)
    ensures UnquoteColumns(query) == query <==> KeepsTokens(query) && Unconverted(query)
  {
    var ts := TokensFrom(query, 0);
    if ts != [] && IsSelect(ts[0]) {
      if KeepsTokens(query) {
        RequotingKeepsText(query);
      } else if UnquoteColumns(query) == query {
        QueryLosesQuotes(query);
        TokensNotEmpty(query, 0);
        Unaltered(Machine(ts).out, ts, query[LexedEnd(query, 0)..]);
        TokensFromSpelled(query, 0);
        AllTokensWrittenExactly(ts);
        assert false;
      }
    }
  }
}
