/** What re-quoting does to a query: which tokens get lost, how far a subquery reaches, and that
    nothing but double quotes is ever added. */
module ColumnWalkProperties {
  import opened Chars
  import opened Tokens
  import opened Lexer
  import opened LexerProperties
  import opened ColumnWalk
  import opened TokenNesting

  function Toks(out: seq<Emission>): seq<Token> {
    seq(|out|, i requires 0 <= i < |out| => out[i].tok)
  }

  lemma {:induction false} ToksAppend(a: seq<Emission>, b: seq<Emission>)
    ensures Toks(a + b) == Toks(a) + Toks(b)
  {
  }

  /** What the lexer guarantees of its tokens: parentheses are spelled as such, a blank is one
      character and nothing is EOS. */
  predicate Spelled(ts: seq<Token>) {
    forall i :: 0 <= i < |ts| ==> WellSpelled(ts[i])
  }

  predicate WellSpelled(t: Token) {
    && t.kind != EOS
    && (t.kind == LPARENT ==> t.literal == "(") && (t.kind == RPARENT ==> t.literal == ")")
    && (t.kind == SPACE ==> |t.literal| == 1)
  }

  lemma {:induction false} TokensFromSpelled(text: string, p: nat)
    requires Lexable(text, p)
    ensures Spelled(TokensFrom(text, p))
    decreases |text| - p
  {
    var r := Next(text, p, true);
    if r.token.kind != EOS {
      TokensFromSpelled(text, r.end);
      assert r.token.kind == LPARENT ==> text[p..r.end] == [text[p]];
      assert r.token.kind == RPARENT ==> text[p..r.end] == [text[p]];
    }
  }

  // ---- How far a machine reads

  /** Every SELECT stands directly behind an opening parenthesis, blanks apart; `open` says that the
      tokens before end with one. */
  predicate SelectsInParentheses(ts: seq<Token>, open: bool) {
    ts == [] || (
      && (IsSelect(ts[0]) ==> open)
      && SelectsInParentheses(ts[1..], ts[0].kind == LPARENT || (ts[0].kind == SPACE && open)))
  }

  /** What is left behind the closing parenthesis, or nothing if there is none. */
  function Behind(ts: seq<Token>, n: nat): seq<Token>
    requires n <= |ts|
  {
    if n == 0 then [] else ts[n..]
  }

  function Through(ts: seq<Token>, n: nat): seq<Token>
    requires n <= |ts|
  {
    if n == 0 then ts else ts[..n]
  }

  /** `w` covers `ts` through its `n`th token, or all of it if `n` is 0. */
  predicate Covers(w: Written, ts: seq<Token>, n: nat)
    requires n <= |ts|
  {
    Toks(w.out) == Through(ts, n) && w.rest == Behind(ts, n)
  }

  lemma {:induction false} AfterSpan(f: Frame, ts: seq<Token>, open: bool, w: Written, n: nat)
    requires Spelled(ts) && SelectsInParentheses(ts, open) && 0 <= f.level && (open ==> 1 <= f.level)
    requires w == After(f, ts) && n == Closing(ts, f.level + 1)
    ensures Covers(w, ts, n)
    decreases |ts|, 3
  {
    if ts == [] {
    } else if IsSelect(ts[0]) {
      SubquerySpan(f, ts, w, n);
    } else if HasState(ts[0].kind) {
      var state := f.state.Next(ts[0], f.allies);
      HeadSpan(Frame(state, state.Allies(f.allies), f.level), true, ts, ts[0].kind == SPACE && open, w, n);
    } else {
      HeadSpan(f, false, ts, ts[0].kind == LPARENT || (ts[0].kind == SPACE && open), w, n);
    }
  }

  lemma {:induction false} HeadSpan(f: Frame, read: bool, ts: seq<Token>, open: bool, w: Written, n: nat)
    requires ts != [] && Spelled(ts) && SelectsInParentheses(ts[1..], open) && 0 <= f.level
    requires read ==> HasState(ts[0].kind)
    requires open ==> 1 <= LevelAfter(f, read, ts[0])
    requires w == AtHead(f, read, ts[0], ts[1..]) && n == Closing(ts, f.level + 1)
    ensures Covers(w, ts, n)
    decreases |ts|, 2
  {
    var level := LevelAfter(f, read, ts[0]);
    assert DepthAfter(f.level + 1, ts[0]) == level + 1;
    if level < 0 {
      assert Toks([Emission(ts[0], TokenText(f, read, ts[0]))]) == ts[..1];
    } else {
      var f1 := f.(level := level);
      AfterSpan(f1, ts[1..], open, After(f1, ts[1..]), Closing(ts[1..], level + 1));
      SpanOn(f, read, ts, After(f1, ts[1..]), Closing(ts[1..], level + 1), w, n);
    }
  }

  /** The machine goes on behind the first token. */
  lemma {:induction false} SpanOn(
      f: Frame, read: bool, ts: seq<Token>, w1: Written, m: nat, w: Written, n: nat)
    requires ts != [] && ts[0].kind != EOS && 0 <= f.level && 0 <= LevelAfter(f, read, ts[0])
    requires DepthAfter(f.level + 1, ts[0]) == LevelAfter(f, read, ts[0]) + 1
    requires w1 == After(f.(level := LevelAfter(f, read, ts[0])), ts[1..])
    requires m == Closing(ts[1..], LevelAfter(f, read, ts[0]) + 1) && Covers(w1, ts[1..], m)
    requires w == AtHead(f, read, ts[0], ts[1..]) && n == Closing(ts, f.level + 1)
    ensures Covers(w, ts, n)
  {
    SpanFirst(Emission(ts[0], TokenText(f, read, ts[0])), w1, ts, m);
  }

  lemma {:induction false} RestConditions(ts: seq<Token>, sub: Written, m: nat)
    requires Spelled(ts) && SelectsInParentheses(ts, true) && m <= |ts| && (m != 0 ==> ts[m - 1].kind == RPARENT)
    requires Covers(sub, ts, m) && sub.rest != []
    ensures |sub.rest| < |ts| && Spelled(sub.rest) && SelectsInParentheses(sub.rest, false)
  {
    SuffixConditions(ts, m, true);
  }

  lemma {:induction false} SubquerySpan(f: Frame, ts: seq<Token>, w: Written, n: nat)
    requires ts != [] && IsSelect(ts[0]) && Spelled(ts) && SelectsInParentheses(ts, true) && 1 <= f.level
    requires w == After(f, ts) && n == Closing(ts, f.level + 1)
    ensures Covers(w, ts, n)
    decreases |ts|, 2
  {
    var sub, m := Machine(ts), Closing(ts, 1);
    var f1 := f.(level := f.level - 1);
    SubquerySpanned(ts, sub, m);
    if sub.rest != [] {
      RestConditions(ts, sub, m);
      RestSpan(f1, sub.rest, AtHead(f1, false, HeadOf(sub.rest), TailOf(sub.rest)), Closing(sub.rest, f.level));
    }
    SpanBehind(f, ts, sub, m, AtHead(f1, false, HeadOf(sub.rest), TailOf(sub.rest)), w, n);
  }

  /** What the machine does with the tokens behind a subquery. */
  lemma {:induction false} RestSpan(f: Frame, ts: seq<Token>, w: Written, n: nat)
    requires ts != [] && Spelled(ts) && SelectsInParentheses(ts, false) && 0 <= f.level
    requires w == AtHead(f, false, HeadOf(ts), TailOf(ts)) && n == Closing(ts, f.level + 1)
    ensures Covers(w, ts, n)
    decreases |ts|, 3
  {
    HeadSpan(f, false, ts, ts[0].kind == LPARENT, w, n);
  }

  /** The machine goes on behind a subquery of `m` tokens. */
  lemma {:induction false} SpanBehind(
      f: Frame, ts: seq<Token>, sub: Written, m: nat, w1: Written, w: Written, n: nat)
    requires ts != [] && IsSelect(ts[0]) && 1 <= f.level && sub == Machine(ts) && m == Closing(ts, 1)
    requires Covers(sub, ts, m)
    requires w1 == AtHead(f.(level := f.level - 1), false, HeadOf(sub.rest), TailOf(sub.rest))
    requires sub.rest != [] ==> Covers(w1, sub.rest, Closing(sub.rest, f.level))
    requires w == After(f, ts) && n == Closing(ts, f.level + 1)
    ensures Covers(w, ts, n)
  {
    ClosingSplit(ts, 1, f.level);
    if sub.rest == [] {
      assert sub.out + w1.out == sub.out;
    } else {
      SpanJoin(sub, w1, ts, m, Closing(sub.rest, f.level));
    }
  }

  lemma {:induction false} SubquerySpanned(ts: seq<Token>, w: Written, n: nat)
    requires ts != [] && IsSelect(ts[0]) && Spelled(ts) && SelectsInParentheses(ts, true)
    requires w == Machine(ts) && n == Closing(ts, 1)
    ensures Covers(w, ts, n) && (n != 0 ==> ts[n - 1].kind == RPARENT)
    decreases |ts|, 1
  {
    var f := Frame(SelectState(ts[0]), [], 0);
    ClosingIsParenthesis(ts, 1);
    SelectIsNoParenthesis(ts[0]);
    AfterSpan(f, ts[1..], false, After(f, ts[1..]), Closing(ts[1..], 1));
    MachineSpan(ts, After(f, ts[1..]), Closing(ts[1..], 1), w, n);
  }

  lemma {:induction false} SpanJoin(sub: Written, w: Written, ts: seq<Token>, n: nat, m: nat)
    requires 0 < n < |ts| && m <= |ts| - n && Covers(sub, ts, n) && Covers(w, ts[n..], m)
    ensures Covers(Written(sub.out + w.out, w.rest), ts, if m == 0 then 0 else n + m)
  {
    ToksAppend(sub.out, w.out);
    assert m != 0 ==> ts[n..][m..] == ts[n + m..];
    assert ts[..n] + Through(ts[n..], m) == Through(ts, if m == 0 then 0 else n + m);
  }

  lemma {:induction false} SpanFirst(e: Emission, w: Written, ts: seq<Token>, m: nat)
    requires ts != [] && e.tok == ts[0] && m <= |ts| - 1 && Covers(w, ts[1..], m)
    ensures Covers(Written([e] + w.out, w.rest), ts, if m == 0 then 0 else m + 1)
  {
    ToksAppend([e], w.out);
    assert Toks([e]) == [ts[0]];
    assert [ts[0]] + Through(ts[1..], m) == Through(ts, if m == 0 then 0 else m + 1);
  }

  /** A suffix that starts behind a closing parenthesis meets the conditions, with nothing open. */
  lemma {:induction false} SuffixConditions(ts: seq<Token>, n: nat, open: bool)
    requires 0 < n < |ts| && Spelled(ts) && SelectsInParentheses(ts, open) && ts[n - 1].kind == RPARENT
    ensures Spelled(ts[n..]) && SelectsInParentheses(ts[n..], false)
  {
    if 1 < n {
      assert ts[1..][n - 1..] == ts[n..];
      SuffixConditions(ts[1..], n - 1, ts[0].kind == LPARENT || (ts[0].kind == SPACE && open));
    }
  }

  lemma {:induction false} SelectIsNoParenthesis(t: Token)
    requires IsSelect(t) && WellSpelled(t)
    ensures t.kind != LPARENT && t.kind != RPARENT && t.kind != EOS
  {
    assert |t.literal| == |ToUpper(t.literal)|;
  }

  lemma {:induction false} MachineSpan(ts: seq<Token>, w1: Written, m: nat, w: Written, n: nat)
    requires ts != [] && ts[0].kind != LPARENT && ts[0].kind != RPARENT && ts[0].kind != EOS
    requires w1 == After(Frame(SelectState(ts[0]), [], 0), ts[1..])
    requires m == Closing(ts[1..], 1) && Covers(w1, ts[1..], m)
    requires w == Machine(ts) && n == Closing(ts, 1)
    ensures Covers(w, ts, n)
  {
    SpanFirst(Emission(ts[0], ts[0].literal), w1, ts, m);
  }

  /** A machine started on a SELECT reads through the parenthesis that closes the one before it, at
      any depth, and writes every token up to there; if none closes it, it reads to the end. */
  lemma {:induction false} SubqueryExact(ts: seq<Token>)
    requires ts != [] && IsSelect(ts[0]) && Spelled(ts) && SelectsInParentheses(ts, true)
    ensures Covers(Machine(ts), ts, Closing(ts, 1))
    ensures Closing(ts, 1) != 0 ==> ts[Closing(ts, 1) - 1].kind == RPARENT
  {
    SubquerySpanned(ts, Machine(ts), Closing(ts, 1));
  }

  /** An opening parenthesis, a subquery and its closing parenthesis are written as they are, and the
      machine around them goes on behind with its variables as they were before. */
  lemma {:induction false} SubqueryRestoresLevel(f: Frame, open: Token, ts: seq<Token>)
    requires open.kind == LPARENT && 0 <= f.level
    requires ts != [] && IsSelect(ts[0]) && Spelled(ts) && SelectsInParentheses(ts, true)
    requires Closing(ts, 1) != 0
    ensures var n := Closing(ts, 1);
            var w := AtHead(f, false, HeadOf(ts[n..]), TailOf(ts[n..]));
            && Toks(Machine(ts).out) == ts[..n]
            && AtHead(f, false, open, ts) == Written([Emission(open, "(")] + (Machine(ts).out + w.out), w.rest)
  {
    var n := Closing(ts, 1);
    SubqueryExact(ts);
    var f1 := f.(level := f.level + 1);
    assert f1.(level := f1.level - 1) == f;
  }
}
