/** Whole queries: a query written from texts and escapes is cut back into them, translated escape by
    escape, and left alone where there is nothing to do. */
module WholeQuery {
  import opened Chars
  import opened Tokens
  import opened Lexer
  import opened LexerProperties
  import opened LexerPrinting
  import opened EscapeSequences
  import opened EscapeProperties
  import opened EscapeTrees
  import opened EscapeTranslation
  import opened ColumnWalk
  import opened RequotedText
  import opened ReplaceEscapes
  import opened UnalteredText

  predicate NoBraces(text: string) {
    '{' !in text && '}' !in text
  }

  /** Texts without braces, and sequences each closed by its last character. */
  ghost predicate Proper(segments: Segments) {
    match segments
    case Rest(text) => NoBraces(text)
    case Cut(text, sequence, more) => NoBraces(text) && BalancedBraces(sequence) && Proper(more)
  }

  // ---- Cutting undoes joining

  lemma {:induction false} FirstBraceBehind(s: string, p: nat, a: nat)
    requires p <= a <= |s| && NoBraces(s[p..a]) && (a < |s| ==> s[a] == '{')
    ensures FirstBrace(s, p) == a
    decreases a - p
  {
    if p < a {
      assert s[p..a][0] == s[p];
      assert s[p..a][1..] == s[p + 1..a];
      FirstBraceBehind(s, p + 1, a);
    }
  }

  /** From a position inside, the end of a balanced sequence is found at its last character. */
  lemma {:induction false} BraceEndInside(x: string, p: nat)
    requires 0 < p < |x| && BalancedBraces(x)
    ensures 0 < Depth(x, p) && BraceEnd(x, p, Depth(x, p)) == |x|
    decreases |x| - p
  {
    assert Depth(x, p + 1) == Depth(x, p) + if x[p] == '{' then 1 else if x[p] == '}' then -1 else 0;
    if p + 1 < |x| {
      BraceEndInside(x, p + 1);
    }
  }

  /** The brace at the start is closed by the last character. */
  predicate ClosesAtEnd(x: string) {
    x != "" && x[0] == '{' && BraceEnd(x, 1, 1) == |x|
  }

  lemma {:induction false} BalancedCloses(x: string)
    requires BalancedBraces(x)
    ensures ClosesAtEnd(x)
  {
    assert Depth(x, 1) == Depth(x, 0) + 1;
    assert 1 < |x|;
    BraceEndInside(x, 1);
  }

  /** What is closed within `s[a..b]` is closed there in `s` too. */
  lemma {:induction false} BraceEndWithin(s: string, a: nat, p: nat, b: nat, level: nat)
    requires a <= p <= b <= |s| && 0 < level && BraceEnd(s[a..b], p - a, level) == b - a
    ensures p < b ==> BraceEnd(s, p, level) == b
    decreases b - p
  {
    if p < b {
      assert s[a..b][p - a] == s[p];
      if s[p] == '{' {
        BraceEndWithin(s, a, p + 1, b, level + 1);
      } else if s[p] != '}' {
        BraceEndWithin(s, a, p + 1, b, level);
      } else if level != 1 {
        BraceEndWithin(s, a, p + 1, b, level - 1);
      }
    }
  }

  /** `cut` gives the cut of every suffix of the query. */
  ghost predicate CutsSuffixes(s: string, cut: nat -> Segments) {
    forall i: nat {:trigger SegmentsOf(s, i)} :: i <= |s| ==> cut(i) == SegmentsOf(s, i)
  }

  lemma {:induction false} CutAt(s: string, p: nat, a: nat, b: nat)
    requires p <= a < b <= |s| && FirstBrace(s, p) == a && BraceEnd(s, a + 1, 1) == b
    ensures SegmentsOf(s, p) == Cut(s[p..a], s[a..b], SegmentsOf(s, b))
  {
  }

  lemma {:induction false} CutStep(
      s: string, p: nat, text: string, sequence: string, rest: string, cut: nat -> Segments)
    requires p <= |s| && s[p..] == text + (sequence + rest) && NoBraces(text) && ClosesAtEnd(sequence)
    requires CutsSuffixes(s, cut)
    ensures var b := p + |text| + |sequence|;
            b <= |s| && s[b..] == rest && cut(p) == Cut(text, sequence, cut(b))
  {
    var a := p + |text|;
    var b := a + |sequence|;
    StartsWith(s, p, text, sequence + rest);
    StartsWith(s, a, sequence, rest);
    assert s[a] == sequence[0];
    FirstBraceBehind(s, p, a);
    BraceEndWithin(s, a, a + 1, b, 1);
    CutAt(s, p, a, b);
  }

  lemma {:induction false} RestStep(s: string, p: nat, text: string, cut: nat -> Segments)
    requires p <= |s| && s[p..] == text && NoBraces(text) && CutsSuffixes(s, cut)
    ensures cut(p) == Rest(text)
  {
    assert s[p..|s|] == s[p..];
    FirstBraceBehind(s, p, |s|);
    assert SegmentsOf(s, p) == Rest(text);
  }

  predicate Cuttable(segments: Segments) {
    match segments
    case Rest(text) => NoBraces(text)
    case Cut(text, sequence, more) => NoBraces(text) && ClosesAtEnd(sequence) && Cuttable(more)
  }

  lemma {:induction false} ProperCuttable(segments: Segments)
    requires Proper(segments)
    ensures Cuttable(segments)
  {
    if segments.Cut? {
      BalancedCloses(segments.sequence);
      ProperCuttable(segments.more);
    }
  }

  lemma {:induction false} CuttableText(s: string, p: nat, segments: Segments, x: string, cut: nat -> Segments)
    requires p <= |s| && s[p..] == x == TextOf(segments) && Cuttable(segments) && CutsSuffixes(s, cut)
    ensures cut(p) == segments
    decreases segments
  {
    match segments
    case Rest(text) =>
      RestStep(s, p, text, cut);
    case Cut(text, sequence, more) =>
      CutStep(s, p, text, sequence, TextOf(more), cut);
      CuttableText(s, p + |text| + |sequence|, more, TextOf(more), cut);
  }

  /** The scanner's cut is the only one: joining proper segments and cutting gives them back. */
  lemma {:induction false} SegmentsOfText(segments: Segments)
    requires Proper(segments)
    ensures SegmentsOf(TextOf(segments), 0) == segments
  {
    var s := TextOf(segments);
    assert s[0..] == s;
    ProperCuttable(segments);
    CuttableText(s, 0, segments, s, (i: nat) => if i <= |s| then SegmentsOf(s, i) else Rest(""));
  }

  lemma {:induction false} DepthJoin(a: string, b: string, n: nat)
    requires n <= |a + b|
    ensures Depth(a + b, n) == if n <= |a| then Depth(a, n) else Depth(a, |a|) + Depth(b, n - |a|)
  {
    assert (a + b)[..|a|] == a && (a + b)[|a|..] == b;
    if n <= |a| {
      DepthPrefix(a + b, |a|, n);
    } else {
      DepthPrefix(a + b, |a|, |a|);
      DepthSplit(a + b, |a|, n);
    }
  }

  lemma {:induction false} DepthWithout(s: string, n: nat)
    requires n <= |s| && NoBraces(s)
    ensures Depth(s, n) == 0
    decreases n
  {
    if 0 < n {
      DepthWithout(s, n - 1);
    }
  }

  lemma {:induction false} DepthOfText(segments: Segments, n: nat)
    requires Proper(segments) && n <= |TextOf(segments)|
    ensures 0 <= Depth(TextOf(segments), n)
    decreases segments
  {
    match segments
    case Rest(text) =>
      DepthWithout(text, n);
    case Cut(text, sequence, more) =>
      DepthJoin(text, sequence + TextOf(more), n);
      DepthWithout(text, if n <= |text| then n else |text|);
      if |text| < n {
        DepthJoin(sequence, TextOf(more), n - |text|);
        if |text| + |sequence| < n {
          DepthOfText(more, n - |text| - |sequence|);
        }
      }
  }

  lemma {:induction false} ProperNotStray(segments: Segments)
    requires Proper(segments)
    ensures !Stray(TextOf(segments))
  {
    forall n: nat | n <= |TextOf(segments)|
      ensures 0 <= Depth(TextOf(segments), n)
    {
      DepthOfText(segments, n);
    }
  }

  // ---- Translation of whole queries

  /** A query: text and escapes in turn.  Behind an escape in which another is given up there may be
      tokens that are lost. */
  datatype Query =
    | Text(text: string)
    | WithEscape(text: string, e: EscapeTree, dropped: seq<Token>, more: Query)

  function Printed(e: EscapeTree, dropped: seq<Token>): string { Flatten(SpellEscape(e, dropped)) }

  function SegmentsOfQuery(q: Query): Segments {
    match q
    case Text(text) => Rest(text)
    case WithEscape(text, e, dropped, more) => Cut(text, Printed(e, dropped), SegmentsOfQuery(more))
  }

  function PrintedQuery(q: Query): string { TextOf(SegmentsOfQuery(q)) }

  function MeaningOfQuery(q: Query): string {
    match q
    case Text(text) => text
    case WithEscape(text, e, dropped, more) => text + (Meaning(Printed(e, dropped), e) + MeaningOfQuery(more))
  }

  ghost predicate WellFormedQuery(q: Query) {
    && NoBraces(q.text)
    && match q
       case Text(_) => true
       case WithEscape(_, e, dropped, more) =>
         && WellFormed(e) && Separated(SpellEscape(e, dropped))
         && BalancedBraces(Printed(e, dropped)) && VERTICAL_TAB !in Printed(e, dropped)
         && WellFormedQuery(more)
  }

  lemma {:induction false} QueryProper(q: Query)
    requires WellFormedQuery(q)
    ensures Proper(SegmentsOfQuery(q))
  {
    if q.WithEscape? {
      QueryProper(q.more);
    }
  }

  lemma {:induction false} QueryExpands(q: Query)
    requires WellFormedQuery(q)
    ensures Expand(SegmentsOfQuery(q)) == MeaningOfQuery(q)
  {
    if q.WithEscape? {
      PrintedTreeTranslates(Printed(q.e, q.dropped), q.e, q.dropped);
      QueryExpands(q.more);
    }
  }

  /** Every query of texts and well-formed escapes is rewritten to its texts and the meanings of its
      escapes, and then re-quoted. */
  lemma {:induction false} QueryTranslates(q: Query)
    requires WellFormedQuery(q) && Lexable(MeaningOfQuery(q), 0)
    ensures Finishes(PrintedQuery(q))
    ensures Replacement(PrintedQuery(q)) == UnquoteColumns(MeaningOfQuery(q))
  {
    QueryProper(q);
    ProperNotStray(SegmentsOfQuery(q));
    SegmentsOfText(SegmentsOfQuery(q));
    QueryExpands(q);
    QueryReadable(q);
    SegmentsReadable(PrintedQuery(q), 0);
  }

  /** A query without vertical tabs has a meaning without them, which can be re-quoted therefore. */
  lemma {:induction false} CleanMeaning(q: Query)
    requires WellFormedQuery(q) && VERTICAL_TAB !in PrintedQuery(q)
    ensures VERTICAL_TAB !in MeaningOfQuery(q) && Lexable(MeaningOfQuery(q), 0)
  {
    QueryProper(q);
    SegmentsOfText(SegmentsOfQuery(q));
    QueryExpands(q);
    ExpandedClean(PrintedQuery(q), 0);
  }

  /** Every sequence of the cut can be read to its end. */
  predicate SequencesReadable(segments: Segments) {
    segments.Cut? ==> Lexable(segments.sequence, 0) && SequencesReadable(segments.more)
  }

  lemma {:induction false} SegmentsReadable(s: string, p: nat)
    requires p <= |s| && SequencesReadable(SegmentsOf(s, p))
    ensures Readable(s, p)
    decreases |s| - p
  {
    var segments := SegmentsOf(s, p);
    if segments.Cut? {
      SegmentsReadable(s, BraceEnd(s, FirstBrace(s, p) + 1, 1));
    }
  }

  lemma {:induction false} QueryReadable(q: Query)
    requires WellFormedQuery(q)
    ensures SequencesReadable(SegmentsOfQuery(q))
  {
    if q.WithEscape? {
      QueryReadable(q.more);
    }
  }

  // ---- Queries that come back unchanged

  /** The first token that is not blank. */
  function KeyOf(ts: seq<Token>): Token {
    if ts == [] then END_OF_TEXT else if ts[0].kind == SPACE then KeyOf(ts[1..]) else ts[0]
  }

  /** The word behind the opening brace is none of the keywords of an escape. */
  predicate Unsupported(sequence: string) {
    && Lexable(sequence, 0)
    && var ts := TokensFrom(sequence, 0);
    && ts != [] && ts[0].kind == LCURLY
    && var key := KeyOf(ts[1..]).kind; key != EOS && key != RCURLY && !OpensItem(key)
  }

  predicate AllUnsupported(segments: Segments) {
    segments.Cut? ==> Unsupported(segments.sequence) && AllUnsupported(segments.more)
  }

  lemma {:induction false} KeyBehindBlanks(ts: seq<Token>) returns (key: Padded, more: seq<Token>)
    requires KeyOf(ts).kind != EOS
    ensures Blanks(key.gap) && key.tok == KeyOf(ts) && key.tok.kind != SPACE && ts == SpellPadded(key, more)
  {
    if ts[0].kind == SPACE {
      key, more := KeyBehindBlanks(ts[1..]);
      assert [ts[0]] + (key.gap + ([key.tok] + more)) == ([ts[0]] + key.gap) + ([key.tok] + more);
      assert ts == [ts[0]] + ts[1..];
      key := Padded([ts[0]] + key.gap, key.tok);
    } else {
      key, more := Padded([], ts[0]), ts[1..];
      assert ts == [] + ([ts[0]] + ts[1..]);
    }
  }

  lemma {:induction false} UnsupportedSequenceStays(sequence: string)
    requires Unsupported(sequence)
    ensures Rewritten(sequence) == sequence
  {
    var ts := TokensFrom(sequence, 0);
    var key, more := KeyBehindBlanks(ts[1..]);
    assert ts == [ts[0]] + ts[1..];
    UnsupportedStays(sequence, ts[0], key, more);
  }

  lemma {:induction false} UnsupportedExpands(segments: Segments)
    requires AllUnsupported(segments)
    ensures Expand(segments) == TextOf(segments) && SequencesReadable(segments)
  {
    if segments.Cut? {
      UnsupportedSequenceStays(segments.sequence);
      UnsupportedExpands(segments.more);
    }
  }

  /** A query without a supported escape is only re-quoted. */
  lemma {:induction false} OnlyRequoted(query: string)
    requires Lexable(query, 0) && !Stray(query) && AllUnsupported(SegmentsOf(query, 0))
    ensures Finishes(query) && Replacement(query) == UnquoteColumns(query)
  {
    SegmentsPartition(query, 0);
    assert query[0..] == query;
    UnsupportedExpands(SegmentsOf(query, 0));
    SegmentsReadable(query, 0);
  }

  /** A query without a supported escape comes back as it is if and only if it keeps its tokens and none of
      them is converted. */
  lemma {:induction false} PipelineIdentityExactly(query: string)
    requires Lexable(query, 0) && !Stray(query) && AllUnsupported(SegmentsOf(query, 0))
    ensures Finishes(query) && (Replacement(query) == query <==> KeepsTokens(query) && Unconverted(query))
  {
    OnlyRequoted(query);
    RequotingIsIdentity(query);
  }

  /** A query comes back as it is if a brace in it closes nothing, or if none of its escapes is
      supported, it keeps its tokens and none of those that can be a column is to be converted. */
  lemma {:induction false} PipelineIdentity(query: string)
    requires Finishes(query)
    requires !Stray(query) ==> Lexable(query, 0) && AllUnsupported(SegmentsOf(query, 0)) && KeepsTokens(query)
    requires !Stray(query) ==> Unconverted(query) || NothingToRequote(TokensFrom(query, 0))
    ensures Replacement(query) == query
  {
    if !Stray(query) {
      if !Unconverted(query) {
        NothingToConvert(query);
      }
      PipelineIdentityExactly(query);
    }
  }
}
