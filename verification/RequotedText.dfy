/** Re-quoting on the level of the text: nothing but double quotes is added. */
module RequotedText {
  import opened Chars
  import opened Tokens
  import opened Lexer
  import opened LexerProperties
  import opened ColumnWalk
  import opened TokenNesting
  import opened ColumnWalkProperties
  import opened ColumnWalkExact
  import ColumnConversion

  function StripQuotes(s: string): string {
    if s == "" then "" else (if s[0] == '"' then "" else [s[0]]) + StripQuotes(s[1..])
  }

  lemma {:induction false} StripAppend(a: string, b: string)
    ensures StripQuotes(a + b) == StripQuotes(a) + StripQuotes(b)
  {
    if a == "" {
      assert a + b == b;
    } else {
      assert (a + b)[1..] == a[1..] + b;
      StripAppend(a[1..], b);
    }
  }

  lemma {:induction false} QuotedDot(a: string, b: string)
    ensures StripQuotes(a + "\".\"" + b) == StripQuotes(a + "." + b)
  {
    StripAppend(a + "\".\"", b);
    StripAppend(a, "\".\"");
    StripAppend(a + ".", b);
    StripAppend(a, ".");
    assert "\".\""[1..] == ".\"" && ".\""[1..] == "\"" && "\""[1..] == "" && "."[1..] == "";
  }

  lemma {:induction false} DotAt(s: string, i: nat)
    requires HasAt(s, i, ".")
    ensures i < |s| && s[i] == '.'
  {
    assert s[i] == s[i..i + 1][0];
  }

  lemma {:induction false} DotReplaced(s: string, dot: nat)
    requires dot < |s| && s[dot] == '.'
    ensures StripQuotes(s[..dot] + "\".\"" + s[dot + 1..]) == StripQuotes(s)
    ensures |s[..dot] + "\".\"" + s[dot + 1..]| == |s| + 2
  {
    QuotedDot(s[..dot], s[dot + 1..]);
    assert s == s[..dot] + "." + s[dot + 1..];
  }

  /** Replacing a dot by a quoted one adds two characters and no text. */
  lemma {:induction false} RequoteKeepsText(s: string)
    ensures StripQuotes(Requote(s)) == StripQuotes(s)
    ensures |Requote(s)| == |s| + if PointFrom(s, 0) == |s| then 0 else 2
  {
    var i := PointFrom(s, 0);
    if i < |s| {
      var dot := i + 1 + ColumnWordAt(s, i + 1);
      DotAt(s, dot);
      DotReplaced(s, dot);
    }
  }

  /** The token is written as it stands or re-quoted. */
  predicate Faithful(e: Emission) {
    e.text == e.tok.literal || e.text == Requote(e.tok.literal)
  }

  predicate AllFaithful(out: seq<Emission>) {
    forall e <- out :: Faithful(e)
  }

  lemma {:induction false} AtHeadFaithful(f: Frame, read: bool, cur: Token, ts: seq<Token>)
    requires Spelled(ts) && (cur.kind == EOS || WellSpelled(cur)) && (read ==> f.state.tok == cur)
    ensures AllFaithful(AtHead(f, read, cur, ts).out) && Spelled(AtHead(f, read, cur, ts).rest)
    decreases |ts|, 1
  {
    if cur.kind != EOS && 0 <= f.level {
      assert Faithful(Emission(cur, TokenText(f, read, cur)));
      if 0 <= LevelAfter(f, read, cur) {
        AfterFaithful(f.(level := LevelAfter(f, read, cur)), ts);
      }
    }
  }

  lemma {:induction false} AfterFaithful(f: Frame, ts: seq<Token>)
    requires Spelled(ts)
    ensures AllFaithful(After(f, ts).out) && Spelled(After(f, ts).rest)
    decreases |ts|, 0
  {
    if ts == [] {
    } else if IsSelect(ts[0]) {
      MachineFaithful(ts);
      var sub := Machine(ts);
      AtHeadFaithful(f.(level := f.level - 1), false, HeadOf(sub.rest), TailOf(sub.rest));
    } else if HasState(ts[0].kind) {
      var state := f.state.Next(ts[0], f.allies);
      AtHeadFaithful(Frame(state, state.Allies(f.allies), f.level), true, ts[0], ts[1..]);
    } else {
      AtHeadFaithful(f, false, ts[0], ts[1..]);
    }
  }

  lemma {:induction false} MachineFaithful(ts: seq<Token>)
    requires ts != [] && Spelled(ts)
    ensures AllFaithful(Machine(ts).out) && Spelled(Machine(ts).rest)
    decreases |ts| - 1, 2
  {
    AtHeadFaithful(Frame(SelectState(ts[0]), [], 0), true, ts[0], ts[1..]);
  }

  /** How many tokens are written otherwise than they stand. */
  function Converted(out: seq<Emission>): nat {
    if out == [] then 0 else (if out[0].text == out[0].tok.literal then 0 else 1) + Converted(out[1..])
  }

  lemma {:induction false} RenderKeepsText(out: seq<Emission>)
    requires AllFaithful(out)
    ensures StripQuotes(Render(out)) == StripQuotes(Flatten(Toks(out)))
    ensures |Render(out)| == |Flatten(Toks(out))| + 2 * Converted(out)
    ensures Converted(out) == 0 ==> Render(out) == Flatten(Toks(out))
  {
    if out != [] {
      RenderKeepsText(out[1..]);
      RequoteKeepsText(out[0].tok.literal);
      assert Faithful(out[0]);
      assert Toks(out)[1..] == Toks(out[1..]);
      StripAppend(out[0].text, Render(out[1..]));
      StripAppend(out[0].tok.literal, Flatten(Toks(out[1..])));
    }
  }

  /** What is left of any query that starts with SELECT: the text of the tokens the pass keeps, and
      double quotes besides. */
  lemma {:induction false} RequotedExactly(query: string)
    requires Lexable(query, 0)
    requires var ts := TokensFrom(query, 0); ts != [] && IsSelect(ts[0])
    ensures var ts := TokensFrom(query, 0);
            StripQuotes(UnquoteColumns(query))
              == StripQuotes(Flatten([ts[0]] + Kept(Outermost(0), false, ts[1..])))
  {
    var ts := TokensFrom(query, 0);
    TokensFromSpelled(query, 0);
    TokensWritten(ts);
    MachineFaithful(ts);
    RenderKeepsText(Machine(ts).out);
  }

  /** Re-quoting a query whose tokens all get written changes nothing but double quotes, and nothing
      at all exactly if no token is converted. */
  lemma {:induction false} RequotingKeepsText(query: string)
    requires Lexable(query, 0) && LexedEnd(query, 0) == |query|
    requires var ts := TokensFrom(query, 0);
             ts != [] && IsSelect(ts[0]) && Fits(Outermost(0), false, ts[1..])
    ensures StripQuotes(UnquoteColumns(query)) == StripQuotes(query)
    ensures UnquoteColumns(query) == query <==> Converted(Machine(TokensFrom(query, 0)).out) == 0
  {
    var ts := TokensFrom(query, 0);
    TokensFromSpelled(query, 0);
    Lossless(query, 0);
    AllTokensWrittenExactly(ts);
    MachineFaithful(ts);
    RenderKeepsText(Machine(ts).out);
    assert query[0..|query|] == query;
  }

  /** A condition to be read off the query: no closing parenthesis is one too many, and every later
      SELECT stands directly behind an opening one. */
  predicate WellNested(ts: seq<Token>) {
    Closing(ts, 1) == 0 && SelectsInParentheses(ts, true)
  }

  lemma {:induction false} WellNestedFits(ts: seq<Token>)
    requires ts != [] && IsSelect(ts[0]) && Spelled(ts) && WellNested(ts)
    ensures Toks(Machine(ts).out) == ts
    ensures Fits(Outermost(0), false, ts[1..])
  {
    SubqueryExact(ts);
    AllTokensWrittenExactly(ts);
  }

  /** No token that can be a column holds a quoted ENTITY, TAGS or METRIC with a dot behind it; what a
      string literal or a number holds does not matter. */
  predicate NothingToRequote(ts: seq<Token>) {
    forall i :: 0 <= i < |ts| ==> HasState(ts[i].kind) ==> PointFrom(ts[i].literal, 0) == |ts[i].literal|
  }

  lemma {:induction false} NothingConverted(out: seq<Emission>)
    requires ColumnConversion.AllJustified(out) && NothingToRequote(Toks(out))
    ensures Converted(out) == 0
  {
    if out != [] {
      assert ColumnConversion.Justified(out[0]);
      assert Toks(out)[0] == out[0].tok && Toks(out)[1..] == Toks(out[1..]);
      assert forall i :: 0 <= i < |out[1..]| ==> Toks(out[1..])[i] == Toks(out)[i + 1];
      NothingConverted(out[1..]);
    }
  }

  lemma {:induction false} SpelledParentheses(ts: seq<Token>)
    requires Spelled(ts)
    ensures ColumnConversion.PlainParentheses(ts)
  {
  }

  /** With nothing to convert in it, no token is converted. */
  lemma {:induction false} NoneConverted(ts: seq<Token>)
    requires ts != [] && IsSelect(ts[0]) && Spelled(ts) && Fits(Outermost(0), false, ts[1..]) && NothingToRequote(ts)
    ensures Converted(Machine(ts).out) == 0
  {
    AllTokensWrittenExactly(ts);
    SpelledParentheses(ts);
    ColumnConversion.ConvertedAreColumns(ts);
    NothingConverted(Machine(ts).out);
  }

  /** No token of the query is converted, or the query is none that gets re-quoted. */
  predicate Unconverted(query: string)
    requires Lexable(query, 0)
  {
    var ts := TokensFrom(query, 0);
    ts != [] && IsSelect(ts[0]) ==> Converted(Machine(ts).out) == 0
  }

  /** A query that does not start with SELECT, or that keeps all its tokens. */
  predicate KeepsTokens(query: string)
    requires Lexable(query, 0)
  {
    var ts := TokensFrom(query, 0);
    ts != [] && IsSelect(ts[0]) ==> LexedEnd(query, 0) == |query| && Fits(Outermost(0), false, ts[1..])
  }

  /** A condition to be read off the query under which no token is converted. */
  lemma {:induction false} NothingToConvert(query: string)
    requires Lexable(query, 0) && KeepsTokens(query) && NothingToRequote(TokensFrom(query, 0))
    ensures Unconverted(query)
  {
    var ts := TokensFrom(query, 0);
    if ts != [] && IsSelect(ts[0]) {
      TokensFromSpelled(query, 0);
      NoneConverted(ts);
    }
  }

  lemma {:induction false} NoPoint(s: string)
    requires '"' !in s
    ensures PointFrom(s, 0) == |s|
  {
  }

  predicate NoQuotes(ts: seq<Token>) {
    forall i :: 0 <= i < |ts| ==> '"' !in ts[i].literal
  }

  lemma {:induction false} TokensNoQuotes(ts: seq<Token>)
    requires '"' !in Flatten(ts)
    ensures NoQuotes(ts)
  {
    if ts != [] {
      TokensNoQuotes(ts[1..]);
      assert forall c <- ts[0].literal :: c in ts[0].literal + Flatten(ts[1..]);
      assert forall i :: 0 < i < |ts| ==> ts[i] == ts[1..][i - 1];
    }
  }

  /** Of a query without double quotes nothing is left but the text of the tokens the pass keeps. */
  lemma {:induction false} UnquotedExactly(query: string)
    requires Lexable(query, 0) && '"' !in query
    requires var ts := TokensFrom(query, 0); ts != [] && IsSelect(ts[0])
    ensures var ts := TokensFrom(query, 0);
            UnquoteColumns(query) == Flatten([ts[0]] + Kept(Outermost(0), false, ts[1..]))
  {
    var ts := TokensFrom(query, 0);
    TokensFromSpelled(query, 0);
    TokensWritten(ts);
    MachineFaithful(ts);
    SpelledParentheses(ts);
    ColumnConversion.ConvertedAreColumns(ts);
    Lossless(query, 0);
    TokensNoQuotes(ts);
    KeptNoQuotes(Outermost(0), false, ts[1..]);
    var out := Machine(ts).out;
    forall i | 0 <= i < |Toks(out)|
      ensures PointFrom(Toks(out)[i].literal, 0) == |Toks(out)[i].literal|
    {
      NoPoint(Toks(out)[i].literal);
    }
    NothingConverted(out);
    RenderKeepsText(out);
  }

  lemma {:induction false} KeptNoQuotes(levels: Nest, blind: bool, ts: seq<Token>)
    requires NoQuotes(ts)
    ensures NoQuotes(Kept(levels, blind, ts))
    decreases |ts|
  {
    if ts != [] {
      assert forall i :: 0 <= i < |ts[1..]| ==> ts[1..][i] == ts[i + 1];
      if levels.level < 0 {
        if levels.Inside? {
          KeptNoQuotes(Outer(levels), true, ts[1..]);
        }
      } else if !blind && IsSelect(ts[0]) {
        KeptNoQuotes(Inside(0, levels), false, ts[1..]);
      } else if ts[0].kind == LPARENT {
        KeptNoQuotes(levels.(level := levels.level + 1), false, ts[1..]);
      } else if ts[0].kind != RPARENT {
        KeptNoQuotes(levels, false, ts[1..]);
      } else if 0 < levels.level {
        KeptNoQuotes(levels.(level := levels.level - 1), false, ts[1..]);
      } else if levels.Inside? {
        KeptNoQuotes(Outer(levels), true, ts[1..]);
      }
    }
  }

  /** What follows a surplus closing parenthesis is lost. */
  lemma {:induction false} SurplusParenthesisLosesText(ts: seq<Token>)
    requires ts != [] && IsSelect(ts[0]) && Spelled(ts) && SelectsInParentheses(ts, true)
    requires 0 < Closing(ts, 1) < |ts|
    ensures Toks(Machine(ts).out) == ts[..Closing(ts, 1)] != ts
  {
    SubqueryExact(ts);
  }
}
