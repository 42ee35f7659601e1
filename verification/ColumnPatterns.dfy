/** The two column patterns, said of the text without a search. */
module ColumnPatterns {
  import opened Chars
  import opened ColumnWalk

  predicate OneLine(s: string) { '\n' !in s && '\r' !in s }

  predicate HasDigit(s: string) { exists i :: 0 <= i < |s| && '0' <= s[i] <= '9' }

  predicate Here(s: string, i: nat, word: string) {
    i + |word| <= |s| && s[i..i + |word|] == word
  }

  predicate Contains(s: string, word: string) {
    exists i :: 0 <= i <= |s| && Here(s, i, word)
  }

  /** The words that make a name a column. */
  predicate ColumnWord(w: string) {
    w == "ENTITY" || w == "TAGS" || w == "METRIC" || w == "TEXT" || w == "VALUE" || w == "TIME"
  }

  ghost predicate HasColumnWord(s: string) { exists w :: ColumnWord(w) && Contains(s, w) }

  /** DATETIME contains TIME. */
  lemma {:induction false} TimeInside(s: string, i: nat)
    requires Here(s, i, "DATETIME")
    ensures Here(s, i + 4, "TIME")
  {
    assert s[i + 4..i + 8] == s[i..i + 8][4..8];
  }

  /** What makes the search stop at `i`. */
  lemma {:induction false} WordHere(s: string, i: nat) returns (word: string)
    requires i < |s| && MentionsColumn(s, i) && !MentionsColumn(s, i + 1) && !('0' <= s[i] <= '9')
    ensures ColumnWord(word) && Contains(s, word)
  {
    if Here(s, i, "ENTITY") {
      word := "ENTITY";
    } else if Here(s, i, "TAGS") {
      word := "TAGS";
    } else if Here(s, i, "METRIC") {
      word := "METRIC";
    } else if Here(s, i, "TEXT") {
      word := "TEXT";
    } else if Here(s, i, "VALUE") {
      word := "VALUE";
    } else {
      word := "TIME";
      if !Here(s, i, "TIME") {
        TimeInside(s, i);
      }
    }
  }

  lemma {:induction false} MentionFound(s: string, i: nat)
    requires MentionsColumn(s, i)
    ensures HasDigit(s) || HasColumnWord(s)
    decreases |s| - i
  {
    if MentionsColumn(s, i + 1) {
      MentionFound(s, i + 1);
    } else if !('0' <= s[i] <= '9') {
      var word := WordHere(s, i);
    }
  }

  lemma {:induction false} MentionThere(s: string, i: nat, j: nat, word: string)
    requires i <= j < |s| && ('0' <= s[j] <= '9' || (ColumnWord(word) && Here(s, j, word)))
    ensures MentionsColumn(s, i)
    decreases j - i
  {
    if i < j {
      MentionThere(s, i + 1, j, word);
    }
  }

  /** A name is a column exactly if it stands on one line and contains a digit or one of the words. */
  lemma {:induction false} ColumnExactly(s: string)
    ensures MatchesColumn(s) <==> OneLine(s) && (HasDigit(s) || HasColumnWord(s))
  {
    if MentionsColumn(s, 0) {
      MentionFound(s, 0);
    } else if HasDigit(s) {
      var i :| 0 <= i < |s| && '0' <= s[i] <= '9';
      MentionThere(s, 0, i, "");
    } else if HasColumnWord(s) {
      var word :| ColumnWord(word) && Contains(s, word);
      var i :| 0 <= i <= |s| && Here(s, i, word);
      MentionThere(s, 0, i, word);
    }
  }

  // ---- The dot that is re-quoted

  predicate LineEnd(c: char) { c == '\n' || c == '\r' }

  /** `w` is ENTITY, TAGS or METRIC in any case. */
  predicate PrefixWord(w: string) {
    ToUpper(w) == "ENTITY" || ToUpper(w) == "TAGS" || ToUpper(w) == "METRIC"
  }

  /** `"`, one of these words up to `dot`, a dot, at least one more character and a `"` at `q`, all on one
      line from the dot on. */
  predicate Pointed(s: string, i: nat, dot: nat, q: nat) {
    && i < dot && dot + 2 <= q < |s| && s[i] == '"' && PrefixWord(s[i + 1..dot]) && s[dot] == '.' && s[q] == '"'
    && forall k :: dot < k < q ==> !LineEnd(s[k])
  }

  lemma {:induction false} QuoteFound(s: string, i: nat) returns (q: nat)
    requires QuoteFollows(s, i)
    ensures i <= q < |s| && s[q] == '"' && forall k :: i <= k < q ==> !LineEnd(s[k])
    decreases |s| - i
  {
    if s[i] == '"' {
      q := i;
    } else {
      q := QuoteFound(s, i + 1);
    }
  }

  lemma {:induction false} QuoteThere(s: string, i: nat, q: nat)
    requires i <= q < |s| && s[q] == '"' && forall k :: i <= k < q ==> !LineEnd(s[k])
    ensures QuoteFollows(s, i)
    decreases q - i
  {
    if i < q {
      QuoteThere(s, i + 1, q);
    }
  }

  lemma {:induction false} UpperSlice(s: string, a: nat, b: nat)
    requires a <= b <= |s|
    ensures ToUpper(s)[a..b] == ToUpper(s[a..b])
  {
  }

  lemma {:induction false} WordFound(s: string, i: nat)
    requires 0 < ColumnWordAt(s, i)
    ensures PrefixWord(s[i..i + ColumnWordAt(s, i)])
  {
    UpperSlice(s, i, i + ColumnWordAt(s, i));
  }

  lemma {:induction false} WordThere(s: string, i: nat, dot: nat)
    requires i <= dot < |s| && PrefixWord(s[i..dot]) && s[dot] == '.'
    ensures ColumnWordAt(s, i) == dot - i
  {
    var u := ToUpper(s);
    UpperSlice(s, i, dot);
    assert u[i..dot] == ToUpper(s[i..dot]);
    assert dot == i + 4 ==> u[i] == 'T';
    assert dot == i + 6 ==> u[i] == 'E' || u[i] == 'M';
    assert HasAt(u, i, "ENTITY") ==> u[i..i + 6][0] == u[i] == 'E';
    assert HasAt(u, i, "TAGS") ==> u[i..i + 4][0] == u[i] == 'T';
  }

  lemma {:induction false} PointFound(s: string, i: nat) returns (dot: nat, q: nat)
    requires PointAt(s, i)
    ensures Pointed(s, i, dot, q) && dot == i + 1 + ColumnWordAt(s, i + 1)
  {
    dot := i + 1 + ColumnWordAt(s, i + 1);
    WordFound(s, i + 1);
    q := QuoteFound(s, dot + 2);
    assert s[dot..dot + 1] == ".";
  }

  lemma {:induction false} PointThere(s: string, i: nat, dot: nat, q: nat)
    requires Pointed(s, i, dot, q)
    ensures PointAt(s, i) && dot == i + 1 + ColumnWordAt(s, i + 1)
  {
    WordThere(s, i + 1, dot);
    QuoteThere(s, dot + 2, q);
    assert s[dot..dot + 1] == ".";
  }

  /** There is no such place in front of `i`. */
  predicate NonePointed(s: string, i: nat)
    requires i <= |s|
  {
    forall j, dot, q :: 0 <= j < i && j < dot < |s| && dot < q < |s| ==> !Pointed(s, j, dot, q)
  }

  lemma {:induction false} NoPointFound(s: string, i: nat)
    requires i <= |s| && NonePointed(s, i)
    ensures i <= PointFrom(s, 0)
  {
    var p := PointFrom(s, 0);
    if p < i {
      var dot, q := PointFound(s, p);
    }
  }

  lemma {:induction false} RequotedAt(s: string, i: nat, dot: nat, r: string)
    requires i == PointFrom(s, 0) && i < |s| && dot == i + 1 + ColumnWordAt(s, i + 1) && dot < |s|
    requires r == s[..dot] + "\".\"" + s[dot + 1..]
    ensures Requote(s) == r
  {
  }

  /** The dot of the first such place becomes `"."`. */
  lemma {:induction false} RequotedThere(s: string, i: nat, dot: nat, q: nat, r: string)
    requires Pointed(s, i, dot, q) && NonePointed(s, i) && r == s[..dot] + "\".\"" + s[dot + 1..]
    ensures Requote(s) == r
  {
    PointThere(s, i, dot, q);
    NoPointFound(s, i);
    RequotedAt(s, i, dot, r);
  }

  /** A name without such a place stays as it is. */
  lemma {:induction false} NotRequoted(s: string)
    requires NonePointed(s, |s|)
    ensures Requote(s) == s
  {
    NoPointFound(s, |s|);
  }

  lemma {:induction false} TwoNamesPointed(word: string, part: string, s: string)
    requires PrefixWord(word) && part != "" && OneLine(part) && s == "\"" + word + "." + part + "\""
    ensures Pointed(s, 0, |word| + 1, |word| + |part| + 2)
  {
    var dot, q := |word| + 1, |word| + |part| + 2;
    assert s[1..dot] == word;
    forall k | dot < k < q
      ensures !LineEnd(s[k])
    {
      assert s[k] == part[k - dot - 1];
    }
  }

  /** A quoted name of one of the three words and a further part becomes two quoted names. */
  lemma {:induction false} TwoNames(word: string, part: string, s: string, r: string)
    requires PrefixWord(word) && part != "" && OneLine(part) && s == "\"" + word + "." + part + "\""
    requires r == "\"" + word + "\".\"" + part + "\""
    ensures Requote(s) == r
  {
    var dot := |word| + 1;
    TwoNamesPointed(word, part, s);
    assert s[..dot] == "\"" + word;
    assert s[dot + 1..] == part + "\"";
    assert r == s[..dot] + "\".\"" + s[dot + 1..];
    RequotedThere(s, 0, dot, |word| + |part| + 2, r);
  }
}
