/** Further properties of the rewriting of one escape sequence. */
module EscapeProperties {
  import opened Chars
  import opened Tokens
  import opened Lexer
  import opened LexerProperties
  import opened TokenNesting
  import opened EscapeSequences
  import opened EscapeTrees
  import opened EscapeTranslation

  lemma {:induction false} FlattenAppend(a: seq<Token>, b: seq<Token>)
    ensures Flatten(a + b) == Flatten(a) + Flatten(b)
  {
    if a == [] {
      assert a + b == b;
    } else {
      assert (a + b)[1..] == a[1..] + b;
      FlattenAppend(a[1..], b);
    }
  }

  // ---- processParentheses

  /** Nothing among the first `n` tokens starts an escape or stops the scan. */
  predicate Plain(ts: seq<Token>, n: nat)
    requires n <= |ts|
  {
    forall i :: 0 <= i < n ==> ts[i].kind != LCURLY && ts[i].kind != INVALID && ts[i].kind != EOS
  }

  /** The text of the first `n` tokens, and the lexer behind them. */
  function Verbatim(ts: seq<Token>, n: nat): Out
    requires n <= |ts|
  {
    Out(Flatten(ts[..n]), LexState([], ts[n..], true))
  }

  lemma {:induction false} VerbatimJoin(ts: seq<Token>, m: nat, n: nat)
    requires m + n <= |ts|
    ensures Verbatim(ts, m + n) == Out(Verbatim(ts, m).text + Verbatim(ts[m..], n).text, Verbatim(ts[m..], n).lex)
  {
    assert ts[..m + n] == ts[..m] + ts[m..][..n];
    FlattenAppend(ts[..m], ts[m..][..n]);
    assert ts[m..][n..] == ts[m + n..];
  }

  lemma {:induction false} VerbatimOne(ts: seq<Token>)
    requires ts != []
    ensures Verbatim(ts, 1) == Out(ts[0].literal, LexState([], ts[1..], true))
  {
    assert Flatten(ts[..1]) == ts[0].literal + Flatten(ts[..1][1..]);
  }

  lemma {:induction false} LoopVerbatim(src: string, ts: seq<Token>)
    requires 0 < Closing(ts, 1) && Plain(ts, Closing(ts, 1))
    ensures ParenthesesLoop(src, LexState([], ts, true)) == Verbatim(ts, Closing(ts, 1))
    decreases |ts|, 1
  {
    var n := Closing(ts, 1);
    assert ts == [ts[0]] + ts[1..];
    StepFirst(ts[0], ts[1..], true);
    VerbatimOne(ts);
    if ts[0].kind == RPARENT {
    } else if ts[0].kind == LPARENT {
      GroupVerbatim(src, ts, n, ParenthesesLoop(src, LexState([], ts, true)));
    } else {
      LoopVerbatim(src, ts[1..]);
      VerbatimJoin(ts, 1, n - 1);
    }
  }

  lemma {:induction false} PlainBehind(ts: seq<Token>, n: nat, a: nat, k: nat)
    requires a + k <= n <= |ts| && Plain(ts, n)
    ensures Plain(ts[a..], k)
  {
  }

  /** A group ends behind its `m`th token, and the rest of the surrounding one is `k` tokens long. */
  lemma {:induction false} GroupLengths(ts: seq<Token>, n: nat) returns (m: nat, k: nat)
    requires 0 < Closing(ts, 1) == n && Plain(ts, n) && ts[0].kind == LPARENT
    ensures n == m + 1 + k
    ensures m == Closing(ts[1..], 1) && 0 < m && Plain(ts[1..], m)
    ensures k == Closing(ts[m + 1..], 1) && 0 < k && Plain(ts[m + 1..], k)
  {
    m := Closing(ts[1..], 1);
    ClosingSplit(ts[1..], 1, 1);
    assert ts[1..][m..] == ts[m + 1..];
    k := Closing(ts[m + 1..], 1);
    PlainBehind(ts, n, 1, m);
    PlainBehind(ts, n, m + 1, k);
  }

  lemma {:induction false} GroupVerbatim(src: string, ts: seq<Token>, n: nat, all: Out)
    requires 0 < Closing(ts, 1) == n && Plain(ts, n) && ts[0].kind == LPARENT
    requires all == ParenthesesLoop(src, LexState([], ts, true))
    ensures all == Verbatim(ts, n)
    decreases |ts|, 0
  {
    var m, k := GroupLengths(ts, n);
    ParenthesesVerbatim(src, ts[0], ts[1..], true);
    LoopVerbatim(src, ts[m + 1..]);
    GroupJoined(src, ts, m, k, Parentheses(src, LexState([ts[0]], ts[1..], true)),
                ParenthesesLoop(src, LexState([], ts[m + 1..], true)), all);
  }

  /** A group and the rest, each returned as it stands. */
  lemma {:induction false} GroupJoined(src: string, ts: seq<Token>, m: nat, k: nat, p: Out, r: Out, all: Out)
    requires 1 + m + k <= |ts| && ts != [] && ts[0].kind == LPARENT
    requires p == Parentheses(src, LexState([ts[0]], ts[1..], true))
    requires p == Out(ts[0].literal + Flatten(ts[1..][..m]), LexState([], ts[1..][m..], true))
    requires r == ParenthesesLoop(src, LexState([], ts[m + 1..], true)) == Verbatim(ts[m + 1..], k)
    requires all == ParenthesesLoop(src, LexState([], ts, true))
    ensures all == Verbatim(ts, m + 1 + k)
  {
    GroupText(ts, m, k, p, r);
    GroupInParentheses(src, ts[0], ts[1..]);
  }

  lemma {:induction false} GroupText(ts: seq<Token>, m: nat, k: nat, p: Out, r: Out)
    requires 1 + m + k <= |ts| && ts != []
    requires p == Out(ts[0].literal + Flatten(ts[1..][..m]), LexState([], ts[1..][m..], true))
    requires r == Verbatim(ts[m + 1..], k)
    ensures ts == [ts[0]] + ts[1..] && p.lex == LexState([], ts[m + 1..], true)
    ensures Out(p.text + r.text, r.lex) == Verbatim(ts, m + 1 + k)
  {
    VerbatimOne(ts);
    VerbatimJoin(ts, 1, m);
    VerbatimJoin(ts, m + 1, k);
  }

  /** Over tokens that hold no escape, the text through the matching parenthesis is returned as it
      stands, blanks included, and the scan stops there.  Whatever token stands for the opening one. */
  lemma {:induction false} ParenthesesVerbatim(src: string, open: Token, ts: seq<Token>, emit: bool)
    requires 0 < Closing(ts, 1) && Plain(ts, Closing(ts, 1))
    ensures Parentheses(src, LexState([open], ts, emit))
         == Out(open.literal + Flatten(ts[..Closing(ts, 1)]), LexState([], ts[Closing(ts, 1)..], true))
    decreases |ts|, 2
  {
    LoopVerbatim(src, ts);
    assert LexState([open], ts, true).Popped() == LexState([], ts, true);
  }

  lemma {:induction false} LoopRunsOut(src: string, ts: seq<Token>)
    requires Closing(ts, 1) == 0 && Plain(ts, |ts|)
    ensures ParenthesesLoop(src, LexState([], ts, true)).lex.Size() == 0
    decreases |ts|, 1
  {
    if ts != [] {
      assert ts == [ts[0]] + ts[1..];
      StepFirst(ts[0], ts[1..], true);
      PlainBehind(ts, |ts|, 1, |ts| - 1);
      if ts[0].kind == LPARENT {
        GroupRunsOut(src, ts);
        GroupInParentheses(src, ts[0], ts[1..]);
      } else {
        LoopRunsOut(src, ts[1..]);
      }
    }
  }

  lemma {:induction false} GroupRunsOut(src: string, ts: seq<Token>)
    requires Closing(ts, 1) == 0 && Plain(ts, |ts|) && ts != [] && ts[0].kind == LPARENT
    ensures ParenthesesLoop(src, Parentheses(src, LexState([ts[0]], ts[1..], true)).lex).lex.Size() == 0
    decreases |ts|, 0
  {
    var n := Closing(ts[1..], 1);
    ClosingSplit(ts[1..], 1, 1);
    PlainBehind(ts, |ts|, 1, |ts| - 1);
    if n == 0 {
      ParenthesesRunOut(src, ts[0], ts[1..], true);
    } else {
      ClosedGroup(src, ts, n);
      PlainBehind(ts, |ts|, n + 1, |ts| - n - 1);
      assert ts[1..][n..] == ts[n + 1..];
      LoopRunsOut(src, ts[n + 1..]);
    }
  }

  lemma {:induction false} ClosedGroup(src: string, ts: seq<Token>, n: nat)
    requires Plain(ts, |ts|) && ts != [] && 0 < n == Closing(ts[1..], 1)
    ensures Parentheses(src, LexState([ts[0]], ts[1..], true)).lex == LexState([], ts[n + 1..], true)
  {
    PlainBehind(ts, |ts|, 1, n);
    ParenthesesVerbatim(src, ts[0], ts[1..], true);
    assert ts[1..][n..] == ts[n + 1..];
  }

  /** If they do not close, all of the text is read.  Whatever token stands for the opening one. */
  lemma {:induction false} ParenthesesRunOut(src: string, open: Token, ts: seq<Token>, emit: bool)
    requires Closing(ts, 1) == 0 && Plain(ts, |ts|)
    ensures Parentheses(src, LexState([open], ts, emit)).lex.Size() == 0
    decreases |ts|, 2
  {
    LoopRunsOut(src, ts);
    assert LexState([open], ts, true).Popped() == LexState([], ts, true);
  }

  /** The text of the first `n` tokens, and the lexer in front of the next one, which has been seen. */
  function UpTo(ts: seq<Token>, n: nat): Out
    requires n < |ts|
  {
    Out(Flatten(ts[..n]), LexState([ts[n]], ts[n + 1..], true))
  }

  lemma {:induction false} UpToJoin(ts: seq<Token>, m: nat, n: nat)
    requires m + n < |ts|
    ensures UpTo(ts, m + n) == Out(Flatten(ts[..m]) + UpTo(ts[m..], n).text, UpTo(ts[m..], n).lex)
  {
    assert ts[..m + n] == ts[..m] + ts[m..][..n];
    FlattenAppend(ts[..m], ts[m..][..n]);
    assert ts[m..][n + 1..] == ts[m + n + 1..];
  }

  lemma {:induction false} LoopStops(src: string, ts: seq<Token>, n: nat)
    requires n < |ts| && Plain(ts, n) && ts[n].kind == INVALID && Closing(ts[..n], 1) == 0
    ensures ParenthesesLoop(src, LexState([], ts, true)) == UpTo(ts, n)
    decreases |ts|, 1
  {
    assert ts == [ts[0]] + ts[1..];
    StepFirst(ts[0], ts[1..], true);
    if n == 0 {
      assert Flatten(ts[..0]) == "";
    } else {
      assert ts[..n][0] == ts[0] && ts[..n][1..] == ts[1..][..n - 1];
      PlainBehind(ts, n, 1, n - 1);
      VerbatimOne(ts);
      UpToJoin(ts, 1, n - 1);
      if ts[0].kind == LPARENT {
        GroupStops(src, ts, n, ParenthesesLoop(src, LexState([], ts, true)));
      } else {
        LoopStops(src, ts[1..], n - 1);
      }
    }
  }

  lemma {:induction false} FrontSplit(ts: seq<Token>, n: nat)
    requires 0 < n < |ts|
    ensures ts[..n] != [] && ts[..n][0] == ts[0] && ts[..n][1..] == ts[1..][..n - 1] && ts[1..][n - 1] == ts[n]
  {
  }

  /** A group inside parentheses that are not closed: if it is closed itself, the rest of them is not. */
  lemma {:induction false} NotClosedBehind(inner: seq<Token>, c: nat)
    requires Closing(inner, 2) == 0 && c == Closing(inner, 1) && 0 < c
    ensures Closing(inner[c..], 1) == 0
  {
    ClosingSplit(inner, 1, 1);
  }

  /** Behind a group of `c` tokens that is closed in front of the `n`th. */
  lemma {:induction false} StopLengths(ts: seq<Token>, n: nat, c: nat)
    requires 0 < n < |ts| && Plain(ts, n) && Closing(ts[..n], 1) == 0 && ts[0].kind == LPARENT
    requires c == Closing(ts[1..][..n - 1], 1)
    ensures Plain(ts[1..], n - 1) && ts[1..][n - 1] == ts[n]
    ensures 0 < c ==> c + 1 <= n && c == Closing(ts[1..], 1) && Plain(ts[1..], c)
    ensures 0 < c ==> Plain(ts[c + 1..], n - c - 1) && ts[c + 1..][n - c - 1] == ts[n]
    ensures 0 < c ==> Closing(ts[c + 1..][..n - c - 1], 1) == 0
  {
    FrontSplit(ts, n);
    PlainBehind(ts, n, 1, n - 1);
    if 0 < c {
      ClosingWithin(ts[1..], n - 1, 1);
      NotClosedBehind(ts[1..][..n - 1], c);
      assert ts[1..][..n - 1][c..] == ts[c + 1..][..n - c - 1];
      PlainBehind(ts, n, 1, c);
      PlainBehind(ts, n, c + 1, n - c - 1);
    }
  }

  lemma {:induction false} GroupStops(src: string, ts: seq<Token>, n: nat, all: Out)
    requires 0 < n < |ts| && Plain(ts, n) && ts[n].kind == INVALID && Closing(ts[..n], 1) == 0
    requires ts[0].kind == LPARENT && all == ParenthesesLoop(src, LexState([], ts, true))
    ensures all == UpTo(ts, n)
    decreases |ts|, 0
  {
    var c := Closing(ts[1..][..n - 1], 1);
    StopLengths(ts, n, c);
    if c == 0 {
      ParenthesesStop(src, ts[0], ts[1..], n - 1, true);
      CutGroup(src, ts, n, all);
    } else {
      ParenthesesVerbatim(src, ts[0], ts[1..], true);
      LoopStops(src, ts[c + 1..], n - c - 1);
      GroupBefore(src, ts, n, c, Parentheses(src, LexState([ts[0]], ts[1..], true)),
                  ParenthesesLoop(src, LexState([], ts[c + 1..], true)), all);
    }
  }

  /** A group that the invalid token cuts off ends the surrounding one too. */
  lemma {:induction false} CutGroup(src: string, ts: seq<Token>, n: nat, all: Out)
    requires 0 < n < |ts| && ts[n].kind == INVALID && ts[0].kind == LPARENT
    requires Parentheses(src, LexState([ts[0]], ts[1..], true))
          == Out(ts[0].literal + UpTo(ts[1..], n - 1).text, UpTo(ts[1..], n - 1).lex)
    requires all == ParenthesesLoop(src, LexState([], ts, true))
    ensures all == UpTo(ts, n)
  {
    assert ts == [ts[0]] + ts[1..];
    GroupInParentheses(src, ts[0], ts[1..]);
    WholeGroup(src, ts, n);
  }

  /** A group that is closed in front of it. */
  lemma {:induction false} GroupBefore(src: string, ts: seq<Token>, n: nat, c: nat, p: Out, r: Out, all: Out)
    requires c + 1 <= n < |ts| && ts[0].kind == LPARENT
    requires p == Parentheses(src, LexState([ts[0]], ts[1..], true))
    requires p == Out(ts[0].literal + Flatten(ts[1..][..c]), LexState([], ts[1..][c..], true))
    requires r == ParenthesesLoop(src, LexState([], ts[c + 1..], true)) == UpTo(ts[c + 1..], n - c - 1)
    requires all == ParenthesesLoop(src, LexState([], ts, true))
    ensures all == UpTo(ts, n)
  {
    StoppedText(ts, n, c, p, r);
    GroupInParentheses(src, ts[0], ts[1..]);
  }

  lemma {:induction false} StoppedText(ts: seq<Token>, n: nat, c: nat, p: Out, r: Out)
    requires c + 1 <= n < |ts|
    requires p == Out(ts[0].literal + Flatten(ts[1..][..c]), LexState([], ts[1..][c..], true))
    requires r == UpTo(ts[c + 1..], n - c - 1)
    ensures ts == [ts[0]] + ts[1..] && p.lex == LexState([], ts[c + 1..], true)
    ensures Out(p.text + r.text, r.lex) == UpTo(ts, n)
  {
    GroupFlat(ts, c);
    UpToJoin(ts, c + 1, n - c - 1);
  }

  lemma {:induction false} GroupFlat(ts: seq<Token>, c: nat)
    requires c < |ts|
    ensures Flatten(ts[..c + 1]) == ts[0].literal + Flatten(ts[1..][..c])
  {
    assert ts[..c + 1][1..] == ts[1..][..c];
  }

  lemma {:induction false} WholeGroup(src: string, ts: seq<Token>, n: nat)
    requires 0 < n < |ts| && ts[n].kind == INVALID
    ensures ParenthesesLoop(src, UpTo(ts[1..], n - 1).lex) == Out("", UpTo(ts, n).lex)
    ensures UpTo(ts, n).text == (ts[0].literal + UpTo(ts[1..], n - 1).text) + ""
  {
    GroupFlat(ts, n - 1);
    assert ts[1..][n - 1] == ts[n] && ts[1..][n..] == ts[n + 1..];
  }

  /** An invalid token ends the reading of all parentheses that are open there, and is not consumed. */
  lemma {:induction false} ParenthesesStop(src: string, open: Token, ts: seq<Token>, n: nat, emit: bool)
    requires n < |ts| && Plain(ts, n) && ts[n].kind == INVALID && Closing(ts[..n], 1) == 0
    ensures Parentheses(src, LexState([open], ts, emit)) == Out(open.literal + UpTo(ts, n).text, UpTo(ts, n).lex)
    decreases |ts|, 2
  {
    LoopStops(src, ts, n);
    assert LexState([open], ts, true).Popped() == LexState([], ts, true);
  }

  // ---- Unsupported escapes

  lemma {:induction false} UnknownKeyword(src: string, key: Padded, more: seq<Token>)
    requires Blanks(key.gap) && key.tok.kind != SPACE && !OpensItem(key.tok.kind)
    ensures EscapeLoop(src, "", LexState([], SpellPadded(key, more), false)).text
         == if key.tok.kind == RCURLY then "" else src
  {
    Skip(LexState([], SpellPadded(key, more), false), key, more);
  }

  /** A brace whose first word is none of FN, D and TS stays as it is, unless there is no word at all:
      an empty pair of braces disappears. */
  lemma {:induction false} UnsupportedStays(src: string, open: Token, key: Padded, more: seq<Token>)
    requires Lexable(src, 0) && TokensFrom(src, 0) == [open] + SpellPadded(key, more)
    requires open.kind == LCURLY && Blanks(key.gap) && key.tok.kind != SPACE && !OpensItem(key.tok.kind)
    ensures RewriteSequence(src) == if key.tok.kind == RCURLY then "" else src
    ensures RewriteSequence(src) == src <==> key.tok.kind != RCURLY
  {
    StepFirst(open, SpellPadded(key, more), false);
    UnknownKeyword(src, key, more);
    var s := LexState([], TokensFrom(src, 0), false);
    assert Escape(src, s) == EscapeLoop(src, "", s.Popped());
    assert src != "";
  }

  // ---- removeMilliseconds

  predicate AllDigits(s: string, i: nat, j: nat) {
    i <= j <= |s| && forall k :: i <= k < j ==> IsDigit(s[k])
  }

  /** The length of the token without its closing quote, if it has one. */
  function Unquoted(s: string): nat {
    if s != "" && s[|s| - 1] == '\'' then |s| - 1 else |s|
  }

  /** A fraction at `d`: a dot with only digits behind it, digits `e+1..d` in front of it, and at `e`
      something that is neither a digit nor a dot; the token's first character does not count. */
  predicate FractionAt(s: string, e: nat, d: nat) {
    && 1 <= e < d < Unquoted(s) && s[d] == '.'
    && !IsDigit(s[e]) && s[e] != '.'
    && AllDigits(s, e + 1, d) && AllDigits(s, d + 1, Unquoted(s))
  }

  lemma {:induction false} DotKept(s: string, e: nat, p: nat, d: nat)
    requires 1 <= e <= p < d < |s| && !IsDigit(s[e]) && s[e] != '.' && AllDigits(s, e + 1, p + 1)
    ensures FractionDot(s, p, d) == d
    decreases p
  {
    if e < p {
      DotKept(s, e, p - 1, d);
    }
  }

  lemma {:induction false} DotFound(s: string, e: nat, d: nat, p: nat)
    requires 1 <= e < d <= p < |s| && s[d] == '.' && !IsDigit(s[e]) && s[e] != '.'
    requires AllDigits(s, e + 1, d) && AllDigits(s, d + 1, p + 1)
    ensures FractionDot(s, p, 0) == d
    decreases p
  {
    if p == d {
      DotKept(s, e, d - 1, d);
    } else {
      DotFound(s, e, d, p - 1);
    }
  }

  /** Where the scan that has seen the dot `d` stops with it. */
  lemma {:induction false} KeptDot(s: string, p: nat, d: nat) returns (e: nat)
    requires 0 < d && p < d < |s| && FractionDot(s, p, d) != 0
    ensures FractionDot(s, p, d) == d
    ensures 1 <= e <= p && !IsDigit(s[e]) && s[e] != '.' && AllDigits(s, e + 1, p + 1)
    decreases p
  {
    if IsDigit(s[p]) {
      e := KeptDot(s, p - 1, d);
    } else {
      e := p;
    }
  }

  lemma {:induction false} FoundDot(s: string, p: nat) returns (e: nat)
    requires p < |s| && FractionDot(s, p, 0) != 0
    ensures var d := FractionDot(s, p, 0);
            && 1 <= e < d <= p && s[d] == '.' && !IsDigit(s[e]) && s[e] != '.'
            && AllDigits(s, e + 1, d) && AllDigits(s, d + 1, p + 1)
    decreases p
  {
    if IsDigit(s[p]) {
      e := FoundDot(s, p - 1);
    } else {
      e := KeptDot(s, p - 1, p);
    }
  }

  /** A fraction is cut off together with its dot; a closing quote stays. */
  lemma {:induction false} MillisecondsCut(s: string, e: nat, d: nat)
    requires FractionAt(s, e, d)
    ensures WithoutMilliseconds(s) == s[..d] + s[Unquoted(s)..]
  {
    DotFound(s, e, d, Unquoted(s) - 1);
  }

  /** A token without one stays as it is. */
  lemma {:induction false} NoMillisecondsToCut(s: string)
    requires forall e: nat, d: nat :: !FractionAt(s, e, d)
    ensures WithoutMilliseconds(s) == s
  {
    var n := Unquoted(s);
    if 0 < n {
      var d := FractionDot(s, n - 1, 0);
      if d != 0 {
        var e := FoundDot(s, n - 1);
        assert FractionAt(s, e, d);
      }
    }
  }
}
