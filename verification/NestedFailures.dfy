/** What an escape that is given up does to the calls around it. */
module NestedFailures {
  import opened Chars
  import opened FunctionDeclare
  import opened Tokens
  import opened Lexer
  import opened EscapeSequences
  import opened EscapeTrees
  import opened EscapeTranslation
  import opened OpenCalls
  import opened OperandFailures

  function Joined(front: Args, rest: Args): Args {
    match front
    case NoArgs => rest
    case ArgToken(tok, more) => ArgToken(tok, Joined(more, rest))
    case ArgEscape(e, more) => ArgEscape(e, Joined(more, rest))
  }

  /** Whether unit names are still rewritten behind the arguments: not if an EXTRACT is among them. */
  predicate UnitsBehind(args: Args, units: bool) {
    match args
    case NoArgs => units
    case ArgToken(tok, rest) => UnitsBehind(rest, units && tok.kind != Scalar(EXTRACT))
    case ArgEscape(_, rest) => UnitsBehind(rest, units)
  }

  lemma {:induction false} JoinedArgs(src: string, front: Args, rest: Args, units: bool, tail: seq<Token>)
    requires WellFormedArgs(front) && WellFormedArgs(rest)
    ensures WellFormedArgs(Joined(front, rest))
    ensures SpellArgs(Joined(front, rest), tail) == SpellArgs(front, SpellArgs(rest, tail))
    ensures MeaningOfArgs(src, Joined(front, rest), units)
         == MeaningOfArgs(src, front, units) + MeaningOfArgs(src, rest, UnitsBehind(front, units))
    decreases front
  {
    match front
    case NoArgs =>
    case ArgToken(tok, more) =>
      JoinedArgs(src, more, rest, units && tok.kind != Scalar(EXTRACT), tail);
      Concat3(if tok.kind == Scalar(EXTRACT) then ServerName(EXTRACT)
              else if units then MeaningOfArgument(tok) else tok.literal,
              MeaningOfArgs(src, more, units && tok.kind != Scalar(EXTRACT)),
              MeaningOfArgs(src, rest, UnitsBehind(front, units)));
    case ArgEscape(e, more) =>
      JoinedArgs(src, more, rest, units, tail);
      Concat3(Meaning(src, e), MeaningOfArgs(src, more, units),
              MeaningOfArgs(src, rest, UnitsBehind(front, units)));
  }

  /** The arguments of a call: some, an escape that is given up, and those that follow up to a brace. */
  lemma {:induction false} SplicedArgs(
      src: string, front: Args, e: EscapeTree, rest: Args, units: bool, tail: seq<Token>)
    requires WellFormedArgs(front) && WellFormed(e) && IsGivenUp(e) && WellFormedArgs(rest)
    ensures var args := Joined(front, ArgEscape(e, rest));
            && WellFormedArgs(args)
            && SpellArgs(args, tail) == SpellArgs(front, SpellEscape(e, SpellArgs(rest, tail)))
            && MeaningOfArgs(src, args, units)
                 == MeaningOfArgs(src, front, units) + (src + MeaningOfArgs(src, rest, UnitsBehind(front, units)))
  {
    JoinedArgs(src, front, ArgEscape(e, rest), units, tail);
    GivenUpMeaning(src, e);
  }

  /** An escape that is given up among the arguments of a call spoils the whole sequence: that is written
      in its place, the arguments behind it are read up to the next closing brace, which is the escape's
      own if it was given up in front of that, and what follows the brace is lost. */
  lemma {:induction false} FailureSpliced(
      src: string, open: Token, key: Padded, name: Padded, front: Args, e: EscapeTree, rest: Args, end: Token,
      dropped: seq<Token>)
    requires Lexable(src, 0)
    requires TokensFrom(src, 0) == [open] + SpellPadded(key, SpellPadded(name, SpellArgs(front,
                                     SpellEscape(e, SpellArgs(rest, [end] + dropped)))))
    requires open.kind == LCURLY && Blanks(key.gap) && key.tok.kind == FN
    requires Reads(name, false) && name.tok.kind.Scalar? && name.tok.kind.f != TIMESTAMPADD
    requires WellFormedArgs(front) && WellFormed(e) && IsGivenUp(e) && WellFormedArgs(rest) && end.kind == RCURLY
    ensures var units := name.tok.kind.f != EXTRACT;
            RewriteSequence(src)
              == ServerName(name.tok.kind.f)
                 + (MeaningOfArgs(src, front, units) + (src + MeaningOfArgs(src, rest, UnitsBehind(front, units))))
  {
    var args := Joined(front, ArgEscape(e, rest));
    var units := name.tok.kind.f != EXTRACT;
    SplicedArgs(src, front, e, rest, units, [end] + dropped);
    CallTree(src, open, key, name, args, end, dropped);
  }

  /** A call that is the whole sequence, and what follows its brace. */
  lemma {:induction false} CallTree(
      src: string, open: Token, key: Padded, name: Padded, args: Args, end: Token, dropped: seq<Token>)
    requires Lexable(src, 0)
    requires TokensFrom(src, 0) == [open] + SpellPadded(key, SpellPadded(name, SpellArgs(args, [end] + dropped)))
    requires open.kind == LCURLY && Blanks(key.gap) && key.tok.kind == FN
    requires Reads(name, false) && name.tok.kind.Scalar? && name.tok.kind.f != TIMESTAMPADD
    requires WellFormedArgs(args) && end.kind == RCURLY
    ensures RewriteSequence(src)
         == ServerName(name.tok.kind.f) + MeaningOfArgs(src, args, name.tok.kind.f != EXTRACT)
  {
    var item, close := Call(name, args), Padded([], end);
    var e := EscapeTree(open, MoreItems(key, item, NoItems), close);
    CallSpelled(open, key, name, args, end, dropped);
    assert WellFormedItems(NoItems, false, close);
    TranslationCorrect(src, e, dropped);
    assert MeaningOfItems(src, NoItems) == "";
    assert MeaningOfItem(src, FN, item) + "" == MeaningOfItem(src, FN, item);
  }

  lemma {:induction false} CallSpelled(
      open: Token, key: Padded, name: Padded, args: Args, end: Token, dropped: seq<Token>)
    ensures SpellEscape(EscapeTree(open, MoreItems(key, Call(name, args), NoItems), Padded([], end)), dropped)
         == [open] + SpellPadded(key, SpellPadded(name, SpellArgs(args, [end] + dropped)))
  {
    var t := SpellPadded(Padded([], end), dropped);
    var item := Call(name, args);
    assert t == [end] + dropped;
    assert SpellItems(NoItems, t) == t;
    assert SpellItem(item, t) == SpellPadded(name, SpellArgs(args, t));
  }

  /** The same for a call of TIMESTAMPADD, LTRIM or LOCATE that reads an operand in vain; what it leaves,
      the arguments around it go on with. */
  lemma {:induction false} InVainSpliced(
      src: string, open: Token, key: Padded, name: Padded, front: Args, call: OpenCall, r: Reading,
      tail: seq<Token>, rest: Args, end: Token, dropped: seq<Token>)
    requires Lexable(src, 0)
    requires TokensFrom(src, 0) == [open] + SpellPadded(key, SpellPadded(name, SpellArgs(front,
                                     SpellCall(call, SpellReading(r, tail)))))
    requires open.kind == LCURLY && Blanks(key.gap) && key.tok.kind == FN
    requires Reads(name, false) && name.tok.kind.Scalar? && name.tok.kind.f != TIMESTAMPADD
    requires WellFormedArgs(front) && WellFormedCall(call) && InVain(call.place, r)
    requires ReadLeft(call.place, r, tail) == SpellArgs(rest, [end] + dropped)
    requires WellFormedArgs(rest) && end.kind == RCURLY
    ensures var units := name.tok.kind.f != EXTRACT;
            RewriteSequence(src)
              == ServerName(name.tok.kind.f)
                 + (MeaningOfArgs(src, front, units) + (src + MeaningOfArgs(src, rest, UnitsBehind(front, units))))
  {
    var e := InVainGivenUp(call, r, tail);
    FailureSpliced(src, open, key, name, front, e, rest, end, dropped);
  }
}
