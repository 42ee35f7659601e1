/** Exactly which queries keep all their tokens.

    A machine stops when its level falls below zero.  It then leaves the tokens that follow to the
    machine that started it, which in turn gives up, after swallowing one more token, if the SELECT
    did not stand inside one of its own parentheses. */
module ColumnWalkExact {
  import opened Tokens
  import opened ColumnWalk
  import opened ColumnWalkProperties

  /** The machines at work, the innermost first. */
  datatype Stack = Single(top: Frame) | Over(top: Frame, below: Stack)

  /** Their levels. */
  datatype Nest = Outermost(level: int) | Inside(level: int, outer: Nest)

  function Levels(s: Stack): Nest {
    match s
    case Single(f) => Outermost(f.level)
    case Over(f, below) => Inside(f.level, Levels(below))
  }

  /** The machines below the top one once it has returned to them. */
  function Returned(s: Stack): Stack
    requires s.Over?
  {
    s.below.(top := s.below.top.(level := s.below.top.level - 1))
  }

  /** All the machines of the stack together; `blind` says that the next token is consumed without
      being looked at, as it is behind a subquery. */
  function Whole(s: Stack, blind: bool, ts: seq<Token>): Written
    decreases s
  {
    var w := if blind then AtHead(s.top, false, HeadOf(ts), TailOf(ts)) else After(s.top, ts);
    if s.Single? then w
    else
      var more := WholeBelow(s.below, w.rest);
      Written(w.out + more.out, more.rest)
  }

  function WholeBelow(s: Stack, ts: seq<Token>): Written
    decreases s
  {
    var w := AtHead(s.top.(level := s.top.level - 1), false, HeadOf(ts), TailOf(ts));
    if s.Single? then w
    else
      var more := WholeBelow(s.below, w.rest);
      Written(w.out + more.out, more.rest)
  }

  lemma {:induction false} WholeReturned(s: Stack, ts: seq<Token>)
    requires s.Over?
    ensures Whole(Returned(s), true, ts) == WholeBelow(s.below, ts)
  {
  }

  /** The pass over parentheses and SELECTs that decides whether all tokens are written: a level may
      fall below zero only where no token is left to be lost. */
  predicate Fits(levels: Nest, blind: bool, ts: seq<Token>)
    decreases |ts|
  {
    if ts == [] then true
    else if levels.level < 0 then false
    else if !blind && IsSelect(ts[0]) then Fits(Inside(0, levels), false, ts[1..])
    else if ts[0].kind == LPARENT then Fits(levels.(level := levels.level + 1), false, ts[1..])
    else if ts[0].kind != RPARENT then Fits(levels, false, ts[1..])
    else if 0 < levels.level then Fits(levels.(level := levels.level - 1), false, ts[1..])
    else if levels.Outermost? then ts[1..] == []
    else Fits(Outer(levels), true, ts[1..])
  }

  /** The tokens that get written.  A machine whose level fell below zero swallows the next token and
      returns; behind the outermost one everything is lost. */
  function Kept(levels: Nest, blind: bool, ts: seq<Token>): (kept: seq<Token>)
    ensures |kept| <= |ts|
    decreases |ts|
  {
    if ts == [] then []
    else if levels.level < 0 then
      if levels.Outermost? then [] else Kept(Outer(levels), true, ts[1..])
    else if !blind && IsSelect(ts[0]) then [ts[0]] + Kept(Inside(0, levels), false, ts[1..])
    else if ts[0].kind == LPARENT then [ts[0]] + Kept(levels.(level := levels.level + 1), false, ts[1..])
    else if ts[0].kind != RPARENT then [ts[0]] + Kept(levels, false, ts[1..])
    else if 0 < levels.level then [ts[0]] + Kept(levels.(level := levels.level - 1), false, ts[1..])
    else if levels.Outermost? then [ts[0]]
    else [ts[0]] + Kept(Outer(levels), true, ts[1..])
  }

  /** The levels once the innermost machine has returned. */
  function Outer(levels: Nest): Nest
    requires levels.Inside?
  {
    levels.outer.(level := levels.outer.level - 1)
  }

  /** The pass that decides is the pass that counts: everything is kept exactly if it fits. */
  lemma {:induction false} FitsKept(levels: Nest, blind: bool, ts: seq<Token>)
    ensures Kept(levels, blind, ts) == ts <==> Fits(levels, blind, ts)
    decreases |ts|
  {
    if ts != [] {
      if levels.level < 0 {
      } else if !blind && IsSelect(ts[0]) {
        FitsOne(ts, Inside(0, levels), false);
      } else if ts[0].kind == LPARENT {
        FitsOne(ts, levels.(level := levels.level + 1), false);
      } else if ts[0].kind != RPARENT {
        FitsOne(ts, levels, false);
      } else if 0 < levels.level {
        FitsOne(ts, levels.(level := levels.level - 1), false);
      } else if levels.Inside? {
        FitsOne(ts, Outer(levels), true);
      } else {
        assert ts == [ts[0]] + ts[1..];
      }
    }
  }

  lemma {:induction false} FitsOne(ts: seq<Token>, levels: Nest, blind: bool)
    requires ts != []
    ensures [ts[0]] + Kept(levels, blind, ts[1..]) == ts <==> Fits(levels, blind, ts[1..])
    decreases |ts|, 0
  {
    FitsKept(levels, blind, ts[1..]);
    assert ts == [ts[0]] + ts[1..];
    assert ([ts[0]] + Kept(levels, blind, ts[1..]))[1..] == Kept(levels, blind, ts[1..]);
  }

  // ---- One token at a time

  /** The top machine after writing the token `cur`. */
  function Wrote(s: Stack, f: Frame, read: bool, cur: Token): Stack {
    s.(top := f.(level := LevelAfter(f, read, cur)))
  }

  lemma {:induction false} AssocOut(a: seq<Emission>, b: seq<Emission>, c: seq<Emission>)
    ensures (a + b) + c == a + (b + c)
  {
  }

  /** What the stack writes with `f` on top that has `cur` to write. */
  lemma {:induction false} WriteOne(s: Stack, f: Frame, read: bool, cur: Token, ts: seq<Token>)
    requires cur.kind != EOS && 0 <= f.level && 0 <= LevelAfter(f, read, cur)
    ensures var first, w := Emission(cur, TokenText(f, read, cur)), AtHead(f, read, cur, ts);
            var all := Whole(Wrote(s, f, read, cur), false, ts);
            if s.Single? then w == Written([first] + all.out, all.rest)
            else
              var more := WholeBelow(s.below, w.rest);
              Written(w.out + more.out, more.rest) == Written([first] + all.out, all.rest)
  {
    if s.Over? {
      var first, w := Emission(cur, TokenText(f, read, cur)), AtHead(f, read, cur, ts);
      var w1 := After(Wrote(s, f, read, cur).top, ts);
      AssocOut([first], w1.out, WholeBelow(s.below, w.rest).out);
    }
  }

  /** A machine that starts on the SELECT at the head becomes the top of the stack. */
  lemma {:induction false} StartOne(s: Stack, ts: seq<Token>)
    requires ts != [] && IsSelect(ts[0]) && ts[0].kind != EOS
    ensures var sub := Frame(SelectState(ts[0]), [], 0);
            var all := Whole(Over(sub, s), false, ts[1..]);
            Whole(s, false, ts) == Written([Emission(ts[0], ts[0].literal)] + all.out, all.rest)
  {
    var first := Emission(ts[0], ts[0].literal);
    var sub := After(Frame(SelectState(ts[0]), [], 0), ts[1..]);
    assert Machine(ts) == Written([first] + sub.out, sub.rest);
    var w := AtHead(s.top.(level := s.top.level - 1), false, HeadOf(sub.rest), TailOf(sub.rest));
    AssocOut([first], sub.out, w.out);
    if s.Over? {
      var more := WholeBelow(s.below, w.rest);
      AssocOut([first] + sub.out, w.out, more.out);
      AssocOut(sub.out, w.out, more.out);
      AssocOut([first], sub.out, w.out + more.out);
    }
  }

  // ---- The theorem

  predicate Above(s: Stack) {
    0 <= s.top.level && (s.Over? ==> Above(s.below))
  }

  /** Below the top no level is negative, and the top one's may be so only behind a subquery. */
  predicate Sound(s: Stack, blind: bool) {
    (0 <= s.top.level || (blind && s.top.level == -1)) && (s.Over? ==> Above(s.below))
  }

  lemma {:induction false} WholeBelowEmpty(s: Stack)
    ensures WholeBelow(s, []) == Written([], [])
  {
    if s.Over? {
      WholeBelowEmpty(s.below);
    }
  }

  lemma {:induction false} FirstToken(e: Emission, out: seq<Emission>)
    ensures Toks([e] + out) == [e.tok] + Toks(out)
  {
    ToksAppend([e], out);
    assert Toks([e]) == [e.tok];
  }

  /** A machine whose level fell below zero swallows a token. */
  lemma {:induction false} SwallowOne(s: Stack, ts: seq<Token>)
    requires ts != [] && s.top.level < 0
    ensures Whole(s, true, ts).out == if s.Single? then [] else Whole(Returned(s), true, ts[1..]).out
  {
    if s.Over? {
      WholeReturned(s, ts[1..]);
      assert [] + WholeBelow(s.below, ts[1..]).out == WholeBelow(s.below, ts[1..]).out;
    }
  }

  /** The machines together write exactly the tokens the pass keeps. */
  lemma {:induction false} KeptExactly(s: Stack, blind: bool, ts: seq<Token>)
    requires Spelled(ts) && Sound(s, blind)
    ensures Toks(Whole(s, blind, ts).out) == Kept(Levels(s), blind, ts)
    decreases |ts|, 1
  {
    if ts == [] {
      if s.Over? {
        WholeBelowEmpty(s.below);
      }
    } else if s.top.level < 0 {
      SwallowOne(s, ts);
      if s.Over? {
        KeptExactly(Returned(s), true, ts[1..]);
      }
    } else if !blind && IsSelect(ts[0]) {
      var sub := Over(Frame(SelectState(ts[0]), [], 0), s);
      StartOne(s, ts);
      KeptExactly(sub, false, ts[1..]);
      FirstToken(Emission(ts[0], ts[0].literal), Whole(sub, false, ts[1..]).out);
    } else if !blind && HasState(ts[0].kind) {
      var state := s.top.state.Next(ts[0], s.top.allies);
      WrittenKept(s, blind, Frame(state, state.Allies(s.top.allies), s.top.level), true, ts);
    } else {
      WrittenKept(s, blind, s.top, false, ts);
    }
  }

  lemma {:induction false} WrittenKept(s: Stack, blind: bool, f: Frame, read: bool, ts: seq<Token>)
    requires Spelled(ts) && ts != [] && Above(s) && f.level == s.top.level
    requires blind || !IsSelect(ts[0])
    requires read ==> HasState(ts[0].kind)
    requires (if blind then AtHead(s.top, false, ts[0], ts[1..]) else After(s.top, ts))
          == AtHead(f, read, ts[0], ts[1..])
    ensures Toks(Whole(s, blind, ts).out) == Kept(Levels(s), blind, ts)
    decreases |ts|, 0
  {
    var first := Emission(ts[0], TokenText(f, read, ts[0]));
    if 0 <= LevelAfter(f, read, ts[0]) {
      var s1 := Wrote(s, f, read, ts[0]);
      KeptExactly(s1, false, ts[1..]);
      WrittenOn(s, blind, f, read, ts, Whole(s1, false, ts[1..]), Kept(Levels(s1), false, ts[1..]));
    } else {
      if s.Over? {
        WholeReturned(s, ts[1..]);
        KeptExactly(Returned(s), true, ts[1..]);
      }
      WrittenLast(s, blind, f, read, ts);
    }
  }

  /** The level stays above zero: the machine goes on behind the token. */
  lemma {:induction false} WrittenOn(
      s: Stack, blind: bool, f: Frame, read: bool, ts: seq<Token>, all: Written, kept: seq<Token>)
    requires Spelled(ts) && ts != [] && Above(s) && f.level == s.top.level
    requires (blind || !IsSelect(ts[0])) && (read ==> HasState(ts[0].kind))
    requires (if blind then AtHead(s.top, false, ts[0], ts[1..]) else After(s.top, ts))
          == AtHead(f, read, ts[0], ts[1..])
    requires 0 <= LevelAfter(f, read, ts[0])
    requires all == Whole(Wrote(s, f, read, ts[0]), false, ts[1..]) && Toks(all.out) == kept
    requires kept == Kept(Levels(Wrote(s, f, read, ts[0])), false, ts[1..])
    ensures Toks(Whole(s, blind, ts).out) == Kept(Levels(s), blind, ts)
  {
    WriteOne(s, f, read, ts[0], ts[1..]);
    FirstToken(Emission(ts[0], TokenText(f, read, ts[0])), all.out);
  }

  /** The level falls below zero: the machine writes the token and returns. */
  lemma {:induction false} WrittenLast(s: Stack, blind: bool, f: Frame, read: bool, ts: seq<Token>)
    requires Spelled(ts) && ts != [] && Above(s) && f.level == s.top.level
    requires (blind || !IsSelect(ts[0])) && (read ==> HasState(ts[0].kind))
    requires (if blind then AtHead(s.top, false, ts[0], ts[1..]) else After(s.top, ts))
          == AtHead(f, read, ts[0], ts[1..])
    requires LevelAfter(f, read, ts[0]) < 0
    requires s.Over? ==> Toks(WholeBelow(s.below, ts[1..]).out) == Kept(Levels(Returned(s)), true, ts[1..])
    ensures Toks(Whole(s, blind, ts).out) == Kept(Levels(s), blind, ts)
  {
    var first := Emission(ts[0], TokenText(f, read, ts[0]));
    assert [first] + [] == [first];
    FirstToken(first, []);
    if s.Over? {
      FirstToken(first, WholeBelow(s.below, ts[1..]).out);
    }
  }

  /** All the tokens are written, in order, exactly if the pass says so. */
  lemma {:induction false} FitsExact(s: Stack, blind: bool, ts: seq<Token>)
    requires Spelled(ts) && Sound(s, blind)
    ensures Toks(Whole(s, blind, ts).out) == ts <==> Fits(Levels(s), blind, ts)
  {
    KeptExactly(s, blind, ts);
    FitsKept(Levels(s), blind, ts);
  }

  /** What is written of a query that starts with SELECT. */
  lemma {:induction false} TokensWritten(ts: seq<Token>)
    requires ts != [] && IsSelect(ts[0]) && Spelled(ts)
    ensures Toks(Machine(ts).out) == [ts[0]] + Kept(Outermost(0), false, ts[1..])
  {
    var f := Frame(SelectState(ts[0]), [], 0);
    KeptExactly(Single(f), false, ts[1..]);
    FirstToken(Emission(ts[0], ts[0].literal), After(f, ts[1..]).out);
  }

  /** Re-quoting a query that starts with SELECT writes every token, in order, exactly if the pass
      over its parentheses and SELECTs says so. */
  lemma {:induction false} AllTokensWrittenExactly(ts: seq<Token>)
    requires ts != [] && IsSelect(ts[0]) && Spelled(ts)
    ensures Toks(Machine(ts).out) == ts <==> Fits(Outermost(0), false, ts[1..])
  {
    TokensWritten(ts);
    FitsOne(ts, Outermost(0), false);
  }
}
