/** The whole rewriter: the brace scanner finds the escape sequences, each is rewritten by itself, and
    the result is re-quoted. */
module ReplaceEscapes {
  import opened Chars
  import opened Tokens
  import opened Lexer
  import opened LexerProperties
  import opened LexerPrinting
  import opened EscapeSequences
  import opened EscapeRewriter
  import opened EscapeCharacters
  import opened EscapeProperties
  import opened EscapeTrees
  import opened EscapeTranslation
  import opened ColumnWalk
  import opened StateMachine
  import opened RequotedText

  // ---- Where the scanner cuts

  /** The surplus of `{` over `}` in the first `n` characters. */
  function Depth(s: string, n: nat): int
    requires n <= |s|
  {
    if n == 0 then 0
    else Depth(s, n - 1) + if s[n - 1] == '{' then 1 else if s[n - 1] == '}' then -1 else 0
  }

  /** Some prefix holds more `}` than `{`. */
  ghost predicate Stray(s: string) {
    exists n: nat :: n <= |s| && Depth(s, n) < 0
  }

  /** A brace that is closed by the last character and not before. */
  ghost predicate BalancedBraces(s: string) {
    && s != "" && s[0] == '{' && Depth(s, |s|) == 0
    && forall n :: 0 < n < |s| ==> 0 < Depth(s, n)
  }

  /** The first `{` from `p` on, or the end. */
  function FirstBrace(s: string, p: nat): (n: nat)
    requires p <= |s|
    ensures p <= n <= |s|
    ensures n < |s| ==> s[n] == '{'
    decreases |s| - p
  {
    if p == |s| || s[p] == '{' then p else FirstBrace(s, p + 1)
  }

  /** The position behind the `}` that brings `level` open braces down to none; 0 if there is none. */
  function BraceEnd(s: string, p: nat, level: nat): (n: nat)
    requires p <= |s| && 0 < level
    ensures n == 0 || p < n <= |s|
    decreases |s| - p
  {
    if p == |s| then 0
    else if s[p] == '{' then BraceEnd(s, p + 1, level + 1)
    else if s[p] == '}' then if level == 1 then p + 1 else BraceEnd(s, p + 1, level - 1)
    else BraceEnd(s, p + 1, level)
  }

  /** A query cut into text without escapes and top-level brace sequences. */
  datatype Segments = Rest(text: string) | Cut(text: string, sequence: string, more: Segments)

  /** The query from `p` on; a brace that is never closed makes the rest plain text. */
  function SegmentsOf(s: string, p: nat): Segments
    requires p <= |s|
    decreases |s| - p
  {
    var a := FirstBrace(s, p);
    var b := if a == |s| then 0 else BraceEnd(s, a + 1, 1);
    if b == 0 then Rest(s[p..]) else Cut(s[p..a], s[a..b], SegmentsOf(s, b))
  }

  function TextOf(segments: Segments): string {
    match segments
    case Rest(text) => text
    case Cut(text, sequence, more) => text + (sequence + TextOf(more))
  }

  /** What becomes of a sequence.  One that cannot be read to its end has no meaning here. */
  function Rewritten(sequence: string): string {
    if Lexable(sequence, 0) then RewriteSequence(sequence) else ""
  }

  predicate NoneClosed(s: string, a: nat, b: nat)
    requires a <= b <= |s|
    decreases b
  {
    a == b || (s[b - 1] != '}' && NoneClosed(s, a, b - 1))
  }

  /** Every sequence that the scanner hands to the rewriter, up to a brace that closes nothing, can be
      read to its end. */
  predicate Readable(s: string, p: nat)
    requires p <= |s|
    decreases |s| - p
  {
    var a := FirstBrace(s, p);
    var b := if a == |s| then 0 else BraceEnd(s, a + 1, 1);
    b == 0 || !NoneClosed(s, p, a) || (Lexable(s[a..b], 0) && Readable(s, b))
  }

  lemma {:induction false} CleanReadable(s: string, p: nat)
    requires VERTICAL_TAB !in s && p <= |s|
    ensures Readable(s, p)
    decreases |s| - p
  {
    var a := FirstBrace(s, p);
    var b := if a == |s| then 0 else BraceEnd(s, a + 1, 1);
    if b != 0 {
      CleanReadable(s, b);
    }
  }

  function Expand(segments: Segments): string {
    match segments
    case Rest(text) => text
    case Cut(text, sequence, more) => text + (Rewritten(sequence) + Expand(more))
  }

  ghost predicate AllBalanced(segments: Segments) {
    segments.Cut? ==> BalancedBraces(segments.sequence) && AllBalanced(segments.more)
  }

  // ---- The segments partition the query

  lemma {:induction false} DepthSplit(s: string, a: nat, n: nat)
    requires a <= n <= |s|
    ensures Depth(s, n) == Depth(s, a) + Depth(s[a..], n - a)
    decreases n
  {
    if a < n {
      DepthSplit(s, a, n - 1);
      assert s[a..][n - 1 - a] == s[n - 1];
    }
  }

  lemma {:induction false} DepthPrefix(s: string, b: nat, n: nat)
    requires n <= b <= |s|
    ensures Depth(s[..b], n) == Depth(s, n)
    decreases n
  {
    if 0 < n {
      DepthPrefix(s, b, n - 1);
    }
  }

  /** The end found is where the surplus first reaches zero again. */
  lemma {:induction false} BraceEndDepth(s: string, a: nat, p: nat, level: nat)
    requires a < p <= |s| && s[a] == '{' && 0 < level && Depth(s[a..], p - a) == level
    requires forall n :: 0 < n < p - a ==> 0 < Depth(s[a..], n)
    ensures var b := BraceEnd(s, p, level);
            if b == 0 then (forall n :: 0 < n <= |s| - a ==> 0 < Depth(s[a..], n))
            else BalancedBraces(s[a..b])
    decreases |s| - p
  {
    if p < |s| {
      assert s[a..][p - a] == s[p];
      assert Depth(s[a..], p + 1 - a) == level + if s[p] == '{' then 1 else if s[p] == '}' then -1 else 0;
      if s[p] == '}' && level == 1 {
        var g := s[a..p + 1];
        assert g == s[a..][..p + 1 - a];
        forall n: nat | n <= |g|
          ensures Depth(g, n) == Depth(s[a..], n)
        {
          DepthPrefix(s[a..], p + 1 - a, n);
        }
      } else {
        BraceEndDepth(s, a, p + 1, if s[p] == '{' then level + 1 else if s[p] == '}' then level - 1 else level);
      }
    }
  }

  lemma {:induction false} CutJoined(s: string, p: nat, a: nat, b: nat)
    requires p <= a <= b <= |s|
    ensures s[p..a] + (s[a..b] + s[b..]) == s[p..]
  {
    TailSplit(s, p, a);
    TailSplit(s, a, b);
  }

  /** The segments together are the query, and every sequence that is sent to the rewriter is a brace
      through the one that closes it. */
  lemma {:induction false} SegmentsPartition(s: string, p: nat)
    requires p <= |s|
    ensures TextOf(SegmentsOf(s, p)) == s[p..]
    ensures AllBalanced(SegmentsOf(s, p))
    decreases |s| - p
  {
    var a := FirstBrace(s, p);
    if a < |s| {
      var b := BraceEnd(s, a + 1, 1);
      assert s[a..][0] == '{';
      assert Depth(s[a..], 1) == Depth(s[a..], 0) + 1;
      BraceEndDepth(s, a, a + 1, 1);
      if b != 0 {
        SegmentsPartition(s, b);
        CutJoined(s, p, a, b);
      }
    }
  }

  // ---- The scanner

  /** The query with its escape sequences rewritten, from `p` on. */
  function Expanded(s: string, p: nat): string
    requires p <= |s|
  {
    Expand(SegmentsOf(s, p))
  }

  lemma {:induction false} ExpandClean(segments: Segments)
    requires VERTICAL_TAB !in TextOf(segments)
    ensures VERTICAL_TAB !in Expand(segments)
  {
    if segments.Cut? {
      RewriteSequenceClean(segments.sequence);
      ExpandClean(segments.more);
    }
  }

  lemma {:induction false} ExpandedClean(s: string, p: nat)
    requires VERTICAL_TAB !in s && p <= |s|
    ensures VERTICAL_TAB !in Expanded(s, p)
  {
    SegmentsPartition(s, p);
    ExpandClean(SegmentsOf(s, p));
  }

  /** The rewriter comes to an end on the query: it can read all the sequences and, unless a brace closes
      nothing, what it makes of them. */
  ghost predicate Finishes(query: string) {
    Readable(query, 0) && (!Stray(query) ==> Lexable(Expanded(query, 0), 0))
  }

  /** Without a vertical tab it always does; one inside a string does no harm. */
  lemma {:induction false} CleanFinishes(query: string)
    requires VERTICAL_TAB !in query
    ensures Finishes(query)
  {
    CleanReadable(query, 0);
    ExpandedClean(query, 0);
  }

  /** What comes of a query: with a stray brace in it nothing is done, and otherwise it is re-quoted with
      its escapes rewritten. */
  ghost function Replacement(query: string): string
    requires Finishes(query)
  {
    if Stray(query) then query else UnquoteColumns(Expanded(query, 0))
  }

  lemma {:induction false} ExpandLonger(segments: Segments, t: string)
    ensures Expand(segments.(text := t + segments.text)) == t + Expand(segments)
  {
    if segments.Cut? {
      Concat3(t, segments.text, Rewritten(segments.sequence) + Expand(segments.more));
    }
  }

  lemma {:induction false} SegmentsLonger(s: string, st: nat, p: nat)
    requires st <= p <= |s| && FirstBrace(s, st) == FirstBrace(s, p)
    ensures var segments := SegmentsOf(s, p);
            SegmentsOf(s, st) == segments.(text := s[st..p] + segments.text)
  {
    TailSplit(s, st, p);
    SliceSplit(s, st, p, FirstBrace(s, p));
  }

  /** Text up to the first brace is copied. */
  lemma {:induction false} ExpandedOutside(s: string, st: nat, p: nat)
    requires st <= p <= |s| && FirstBrace(s, st) == FirstBrace(s, p)
    ensures Expanded(s, st) == s[st..p] + Expanded(s, p)
  {
    SegmentsLonger(s, st, p);
    ExpandLonger(SegmentsOf(s, p), s[st..p]);
  }

  /** A closed brace is handed to the rewriter. */
  lemma {:induction false} ExpandedSequence(s: string, st: nat)
    requires st < |s| && s[st] == '{' && BraceEnd(s, st + 1, 1) != 0
    ensures var b := BraceEnd(s, st + 1, 1);
            Expanded(s, st) == Rewritten(s[st..b]) + Expanded(s, b)
  {
    assert s[st..st] == "";
  }

  /** What the scanner knows at `p`: nothing was stray so far, and outside a brace no brace has come
      since `st`, inside one it opened at `st` and has not been closed. */
  ghost predicate Scanning(s: string, st: nat, p: nat, level: nat) {
    && st <= p <= |s| && Depth(s, p) == level && Readable(s, st)
    && (forall n: nat :: n <= p ==> 0 <= Depth(s, n)) && (level == 0 ==> NoneClosed(s, st, p))
    && if level == 0 then FirstBrace(s, st) == FirstBrace(s, p)
       else st < p && s[st] == '{' && BraceEnd(s, st + 1, 1) == BraceEnd(s, p, level)
  }

  lemma {:induction false} ScanOpen(s: string, st: nat, p: nat, level: nat)
    requires Scanning(s, st, p, level) && p < |s| && s[p] == '{'
    ensures level == 0 ==> Readable(s, p)
    ensures if level == 0 then Scanning(s, p, p + 1, 1) && FirstBrace(s, st) == FirstBrace(s, p)
            else Scanning(s, st, p + 1, level + 1)
  {
    assert Depth(s, p + 1) == level + 1;
  }

  lemma {:induction false} ScanClose(s: string, st: nat, p: nat, level: nat)
    requires Scanning(s, st, p, level) && p < |s| && s[p] == '}' && 0 < level
    ensures if level == 1 then
              Scanning(s, p + 1, p + 1, 0) && BraceEnd(s, st + 1, 1) == p + 1 && Lexable(s[st..p + 1], 0)
            else Scanning(s, st, p + 1, level - 1)
  {
    assert Depth(s, p + 1) == level - 1;
  }

  lemma {:induction false} ScanOther(s: string, st: nat, p: nat, level: nat)
    requires Scanning(s, st, p, level) && p < |s| && s[p] != '{' && s[p] != '}'
    ensures Scanning(s, st, p + 1, level)
  {
    assert Depth(s, p + 1) == level;
  }

  lemma {:induction false} ScanStray(s: string, st: nat, p: nat)
    requires Scanning(s, st, p, 0) && p < |s| && s[p] == '}'
    ensures Stray(s)
  {
    assert Depth(s, p + 1) < 0;
  }

  /** `e` gives the expansion of every suffix of the query. */
  ghost predicate Expands(query: string, e: nat -> string) {
    forall i: nat {:trigger Expanded(query, i)} :: i <= |query| ==> e(i) == Expanded(query, i)
  }

  /** Copies the text in front of a top-level brace. */
  method CopyText(query: string, st: nat, p: nat, ret: string, ghost e: nat -> string) returns (longer: string)
    requires st <= p <= |query| && FirstBrace(query, st) == FirstBrace(query, p) && Expands(query, e)
    ensures longer + e(p) == ret + e(st)
  {
    ExpandedOutside(query, st, p);
    Concat3(ret, query[st..p], Expanded(query, p));
    longer := ret;
    if st < p {
      longer := ret + query[st..p];
    }
  }

  /** Copies what is left at the end of the query. */
  method FinishText(query: string, st: nat, ret: string, ghost e: nat -> string) returns (longer: string)
    requires st <= |query| && Expands(query, e)
    requires FirstBrace(query, st) == |query| || (FirstBrace(query, st) == st && BraceEnd(query, st + 1, 1) == 0)
    ensures longer == ret + e(st)
  {
    assert Expanded(query, st) == query[st..];
    longer := ret;
    if st < |query| {
      longer := ret + query[st..];
    }
  }

  /** Rewrites the sequence that ends in front of `b`. */
  method RewriteSegment(query: string, st: nat, b: nat, ret: string, ghost e: nat -> string)
    returns (longer: string)
    requires st < b <= |query| && query[st] == '{' && BraceEnd(query, st + 1, 1) == b
    requires Lexable(query[st..b], 0) && Expands(query, e)
    ensures longer + e(b) == ret + e(st)
  {
    ExpandedSequence(query, st);
    var text := ProcessEscapeSequences(query[st..b]);
    Concat3(ret, text, Expanded(query, b));
    longer := ret + text;
  }

  /** The loop over the characters; `stray` reports a brace that closes nothing. */
  method ScanBraces(query: string, ghost e: nat -> string) returns (stray: bool, ret: string)
    requires Readable(query, 0) && Expands(query, e)
    ensures stray == Stray(query)
    ensures !stray ==> ret == e(0)
  {
    var p: nat, st: nat, level: nat := 0, 0, 0;
    ret := "";
    while p != |query|
      invariant Scanning(query, st, p, level)
      invariant ret + e(st) == e(0)
      decreases |query| - p
    {
      if query[p] == '{' {
        ScanOpen(query, st, p, level);
        if level == 0 {
          ret := CopyText(query, st, p, ret, e);
          st := p;
        }
        level := level + 1;
      } else if query[p] == '}' {
        if level == 0 {
          ScanStray(query, st, p);
          return true, ret;
        }
        ScanClose(query, st, p, level);
        level := level - 1;
        if level == 0 {
          ret := RewriteSegment(query, st, p + 1, ret, e);
          st := p + 1;
        }
      } else {
        ScanOther(query, st, p, level);
      }
      p := p + 1;
    }
    stray := false;
    ret := FinishText(query, st, ret, e);
  }

  method ReplaceEscapeSequences(query: string) returns (result: string)
    requires Finishes(query)
    ensures result == Replacement(query)
  {
    var stray, ret := ScanBraces(query, (i: nat) => if i <= |query| then Expanded(query, i) else "");
    if stray {
      return query;
    }
    // The table of forbidden sequences is empty, so that pass hands the text on as it is.
    result := UnquoteColumnNames(ret);
  }
}
