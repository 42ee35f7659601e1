/** What the token stream keeps of the text, and why looking ahead cannot be noticed. */
module LexerProperties {
  import opened Chars
  import opened Tokens
  import opened Lexer

  function Flatten(ts: seq<Token>): string {
    if ts == [] then "" else ts[0].literal + Flatten(ts[1..])
  }

  // ---- Progress

  /** With blanks emitted, every call of `NextToken` that does not reach the end takes the text from
      the old position to the new one, and the two differ except at a vertical tab: there the same
      empty token is returned for ever. */
  lemma {:induction false} NextTokenSlice(text: string, p: nat)
    ensures var r := Next(text, p, true);
            r.token.kind != EOS ==>
              && p < |text| && p <= r.end <= |text| && r.token.literal == text[p..r.end]
              && (r.end == p <==> text[p] == VERTICAL_TAB)
  {
  }

  /** Where the cursor stands after `n` tokens. */
  function CursorAfter(text: string, p: nat, n: nat): nat
    decreases n
  {
    if n == 0 then p else CursorAfter(text, Next(text, p, true).end, n - 1)
  }

  /** The token behind the first `n` starts at a vertical tab. */
  predicate StuckAfter(text: string, p: nat, n: nat) {
    var q := CursorAfter(text, p, n);
    q < |text| && text[q] == VERTICAL_TAB
  }

  lemma {:induction false} NeverStuck(text: string, p: nat, n: nat)
    requires ReadingEnds(text, p)
    ensures !StuckAfter(text, p, n)
    decreases n
  {
    NextTokenSlice(text, p);
    var r := Next(text, p, true);
    if n != 0 {
      if r.token.kind == EOS {
        assert |text| <= r.end;
        assert Next(text, r.end, true) == Lexed(END_OF_TEXT, r.end);
      }
      NeverStuck(text, r.end, n - 1);
      assert CursorAfter(text, p, n) == CursorAfter(text, r.end, n - 1);
    }
  }

  lemma {:induction false} Stuck(text: string, p: nat) returns (n: nat)
    requires !ReadingEnds(text, p)
    ensures StuckAfter(text, p, n)
    decreases |text| - p
  {
    NextTokenSlice(text, p);
    var r := Next(text, p, true);
    if r.end == p {
      n := 0;
    } else {
      n := Stuck(text, r.end);
      assert CursorAfter(text, p, n + 1) == CursorAfter(text, r.end, n);
      n := n + 1;
    }
  }

  /** Reading comes to an end exactly if no token starts at a vertical tab; one inside a string does not
      matter. */
  lemma {:induction false} ReadingEndsExactly(text: string, p: nat)
    ensures ReadingEnds(text, p) <==> forall n: nat :: !StuckAfter(text, p, n)
  {
    if ReadingEnds(text, p) {
      forall n: nat
        ensures !StuckAfter(text, p, n)
      {
        NeverStuck(text, p, n);
      }
    } else {
      var n := Stuck(text, p);
    }
  }

  /** In particular every text without a vertical tab can be read: `Lexable` says no less than that
      reading ends. */
  lemma {:induction false} LexableExactly(text: string, p: nat)
    ensures Lexable(text, p) <==> ReadingEnds(text, p)
  {
    if VERTICAL_TAB !in text && !ReadingEnds(text, p) {
      var n := Stuck(text, p);
      assert false;
    }
  }

  // ---- Losslessness

  /** Where the last token ends. */
  function LexedEnd(text: string, p: nat): nat
    requires Lexable(text, p)
    decreases |text| - p
  {
    var r := Next(text, p, true);
    if r.token.kind == EOS then p else LexedEnd(text, r.end)
  }

  /** A `"` at `p` that opens an identifier no later character closes or spoils. */
  predicate UnterminatedAt(text: string, p: nat) {
    p < |text| && text[p] == '"' && ScanQuoted(text, p + 1, true).kind == EOS
  }

  /** The tokens are the text, INVALID ones included; all that can be lost is a tail that starts with
      an unterminated `"`, and such a tail is lost. */
  lemma {:induction false} Lossless(text: string, p: nat)
    requires Lexable(text, p) && p <= |text|
    ensures p <= LexedEnd(text, p) <= |text|
    ensures Flatten(TokensFrom(text, p)) == text[p..LexedEnd(text, p)]
    ensures LexedEnd(text, p) < |text| <==> UnterminatedAt(text, LexedEnd(text, p))
    decreases |text| - p
  {
    var r := Next(text, p, true);
    if r.token.kind != EOS {
      Lossless(text, r.end);
      var ts := TokensFrom(text, p);
      assert ts[1..] == TokensFrom(text, r.end);
      SliceSplit(text, p, r.end, LexedEnd(text, r.end));
    }
  }

  // ---- Looking ahead

  function NonBlank(ts: seq<Token>): seq<Token> {
    if ts == [] then []
    else (if ts[0].kind == SPACE then [] else [ts[0]]) + NonBlank(ts[1..])
  }

  /** The tokens plain lexing would return from state `s` on, up to the end of the text. */
  function Stream(s: LexState): seq<Token> {
    s.queue + if s.emit then s.rest else NonBlank(s.rest)
  }

  /** The `i`th of them; behind the last one EOS is repeated. */
  function Nth(s: LexState, i: nat): Token {
    if i < |Stream(s)| then Stream(s)[i] else END_OF_TEXT
  }

  lemma {:induction false} PullIsNonBlank(rest: seq<Token>)
    ensures var (t, r) := Pull(rest, false);
            if NonBlank(rest) == [] then t == END_OF_TEXT && NonBlank(r) == []
            else NonBlank(rest) == [t] + NonBlank(r)
  {
    if rest != [] && rest[0].kind == SPACE {
      PullIsNonBlank(rest[1..]);
    }
  }

  lemma {:induction false} MoveHead(queue: seq<Token>, t: Token, rest: seq<Token>)
    ensures (queue + [t]) + rest == queue + ([t] + rest)
  {
  }

  /** Reading ahead moves a token from the unread text to the queue, or repeats EOS. */
  lemma {:induction false} StreamPulled(s: LexState)
    ensures Stream(s.Pulled()) == Stream(s) || Stream(s.Pulled()) == Stream(s) + [END_OF_TEXT]
  {
    var (t, r) := Pull(s.rest, s.emit);
    PullIsNonBlank(s.rest);
    MoveHead(s.queue, t, if s.emit then r else NonBlank(r));
    if s.emit && s.rest != [] {
      assert s.rest == [t] + r;
    } else if s.emit || NonBlank(s.rest) == [] {
      assert Stream(s) == s.queue;
      assert [t] + [] == [t];
    }
  }

  lemma {:induction false} NthPulled(s: LexState, i: nat)
    ensures Nth(s.Pulled(), i) == Nth(s, i)
  {
    StreamPulled(s);
  }

  lemma {:induction false} NthFilled(s: LexState, n: nat, i: nat)
    ensures Nth(s.Filled(n), i) == Nth(s, i)
    decreases n - |s.queue|
  {
    if |s.queue| < n {
      NthPulled(s, i);
      NthFilled(s.Pulled(), n, i);
    }
  }

  lemma {:induction false} DropHead(queue: seq<Token>, rest: seq<Token>)
    requires queue != []
    ensures (queue + rest)[1..] == queue[1..] + rest
  {
  }

  lemma {:induction false} NthPopped(s: LexState, i: nat)
    ensures Nth(s.Popped(), i) == Nth(s, i + 1)
    ensures s.Head() == Nth(s, 0)
  {
    var s1 := s.Peeked();
    NthFilled(s, 1, i + 1);
    NthFilled(s, 1, 0);
    DropHead(s1.queue, if s.emit then s1.rest else NonBlank(s1.rest));
    assert Stream(s.Popped()) == Stream(s1)[1..];
  }

  /** `LookAhead(n)` returns what the `n+1`st plain call would. */
  lemma {:induction false} LookAheadValue(s: LexState, n: nat)
    ensures s.Filled(n + 1).queue[n] == Nth(s, n)
  {
    NthFilled(s, n + 1, n);
  }

  datatype Call =
    | Consume
    | ConsumeExpected(expected: TokenType)
    | Match(expected: TokenType)
    | Peek
    | LookAhead(n: nat)

  /** The tokens a call removes from the stream, and the state behind it. */
  function Perform(c: Call, s: LexState): (seq<Token>, LexState) {
    match c
    case Consume => ([s.Head()], s.Popped())
    case ConsumeExpected(k) => if s.Head().kind == k then ([s.Head()], s.Popped()) else ([], s.Peeked())
    case Match(k) => if s.Head().kind == k then ([s.Head()], s.Popped()) else ([], s.Peeked())
    case Peek => ([], s.Peeked())
    case LookAhead(n) => ([], s.Filled(n + 1))
  }

  function PerformAll(cs: seq<Call>, s: LexState): (seq<Token>, LexState) {
    if cs == [] then ([], s)
    else
      var (ts, s1) := Perform(cs[0], s);
      var (more, s2) := PerformAll(cs[1..], s1);
      (ts + more, s2)
  }

  lemma {:induction false} PerformKeepsStream(c: Call, s: LexState, i: nat)
    ensures var (ts, s1) := Perform(c, s);
            && |ts| <= 1 && (|ts| == 1 ==> ts[0] == Nth(s, 0))
            && Nth(s1, i) == Nth(s, |ts| + i)
  {
    if c.LookAhead? {
      NthFilled(s, c.n + 1, i);
    } else {
      NthPopped(s, i);
      NthFilled(s, 1, i);
    }
  }

  lemma {:induction false} RunConsumesStream(cs: seq<Call>, s: LexState, j: nat)
    requires j < |PerformAll(cs, s).0|
    ensures PerformAll(cs, s).0[j] == Nth(s, j)
  {
    var (ts, s1) := Perform(cs[0], s);
    if j < |ts| {
      PerformKeepsStream(cs[0], s, 0);
    } else {
      RunConsumesStream(cs[1..], s1, j - |ts|);
      PerformKeepsStream(cs[0], s, j - |ts|);
    }
  }

  lemma {:induction false} RunLeavesStream(cs: seq<Call>, s: LexState, i: nat)
    ensures Nth(PerformAll(cs, s).1, i) == Nth(s, |PerformAll(cs, s).0| + i)
  {
    if cs != [] {
      var (ts, s1) := Perform(cs[0], s);
      var (more, s2) := PerformAll(cs[1..], s1);
      RunLeavesStream(cs[1..], s1, i);
      PerformKeepsStream(cs[0], s, |more| + i);
    }
  }

  /** Any run of the lexer's calls consumes the tokens plain lexing yields, in order, and leaves the
      rest of them; how far it looked ahead makes no difference. */
  lemma {:induction false} LookaheadInvisible(cs: seq<Call>, s: LexState)
    ensures var (ts, s1) := PerformAll(cs, s);
            && (forall j :: 0 <= j < |ts| ==> ts[j] == Nth(s, j))
            && (forall i: nat :: Nth(s1, i) == Nth(s, |ts| + i))
  {
    var (ts, s1) := PerformAll(cs, s);
    forall j | 0 <= j < |ts|
      ensures ts[j] == Nth(s, j)
    {
      RunConsumesStream(cs, s, j);
    }
    forall i: nat
      ensures Nth(s1, i) == Nth(s, |ts| + i)
    {
      RunLeavesStream(cs, s, i);
    }
  }

  /** Changing the emit switch leaves the tokens already queued alone. */
  lemma {:induction false} SetEmitSpacesKeepsQueued(s: LexState, value: bool, i: nat)
    ensures i < |s.queue| ==> Nth(s.(emit := value), i) == Nth(s, i)
    ensures NonBlank(s.rest) == s.rest ==> Nth(s.(emit := value), i) == Nth(s, i)
  {
  }
}
