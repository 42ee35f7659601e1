/** What each token looks like, said of the text alone: where a token ends is the first position with a
    certain property, and no scan is mentioned. */
module TokenForms {
  import opened Chars
  import opened Tokens

  predicate Letter(c: char) { 'A' <= c <= 'Z' || 'a' <= c <= 'z' }

  predicate Digit(c: char) { '0' <= c <= '9' }

  predicate NameChar(c: char) { Letter(c) || Digit(c) || c == '_' || c == '.' || c == '-' }

  /** How many backslashes stand directly in front of `k`, those before `lo` not counted. */
  function Backslashes(text: string, lo: nat, k: nat): nat
    requires lo <= k <= |text|
    decreases k
  {
    if lo < k && text[k - 1] == '\\' then Backslashes(text, lo, k - 1) + 1 else 0
  }

  /** A quote that no backslash escapes: the backslashes in front of it escape one another. */
  predicate Closes(text: string, lo: nat, k: nat)
    requires lo <= k < |text|
  {
    text[k] == '\'' && Backslashes(text, lo, k) % 2 == 0
  }

  /** The token of a `'` in front of `lo`: it ends behind the first quote that is not escaped. */
  predicate StringForm(text: string, lo: nat, l: Lexeme)
    requires lo <= |text|
  {
    || (l.kind == STRING && lo < l.end <= |text| && Closes(text, lo, l.end - 1)
        && forall k :: lo <= k < l.end - 1 ==> !Closes(text, lo, k))
    || (l.kind == INVALID && l.end == |text| && forall k :: lo <= k < |text| ==> !Closes(text, lo, k))
  }

  /** Whether an even number of double quotes stands from `lo` up to `k`. */
  predicate EvenQuotes(text: string, lo: nat, k: nat)
    requires lo <= k <= |text|
    decreases k
  {
    k == lo || if text[k - 1] == '"' then !EvenQuotes(text, lo, k - 1) else EvenQuotes(text, lo, k - 1)
  }

  /** A closing `"` that no dot follows. */
  predicate EndsName(text: string, lo: nat, k: nat)
    requires lo <= k < |text|
  {
    text[k] == '"' && EvenQuotes(text, lo, k) && !(k + 1 < |text| && text[k + 1] == '.')
  }

  /** A `"` that opens a further part of the name, with no character of a name behind it. */
  predicate OpensNothing(text: string, lo: nat, k: nat)
    requires lo <= k < |text|
  {
    text[k] == '"' && !EvenQuotes(text, lo, k) && !(k + 1 < |text| && NameChar(text[k + 1]))
  }

  predicate BreaksName(text: string, k: nat)
    requires k < |text|
  {
    text[k] != '"' && !NameChar(text[k])
  }

  predicate NameGoesOn(text: string, lo: nat, k: nat)
    requires lo <= k < |text|
  {
    !EndsName(text, lo, k) && !OpensNothing(text, lo, k) && !BreaksName(text, k)
  }

  /** The token of a `"` in front of `lo`. */
  predicate QuotedForm(text: string, lo: nat, l: Lexeme)
    requires lo <= |text|
  {
    || (l.kind == IDENT && lo < l.end <= |text| && EndsName(text, lo, l.end - 1)
        && forall k :: lo <= k < l.end - 1 ==> NameGoesOn(text, lo, k))
    || (l.kind == INVALID && lo < l.end <= |text| && OpensNothing(text, lo, l.end - 1)
        && forall k :: lo <= k < l.end - 1 ==> NameGoesOn(text, lo, k))
    || (l.kind == INVALID && lo <= l.end < |text| && BreaksName(text, l.end)
        && forall k :: lo <= k < l.end ==> NameGoesOn(text, lo, k))
    || (l.kind == EOS && l.end == |text| + 1 && forall k :: lo <= k < |text| ==> NameGoesOn(text, lo, k))
  }

  /** The token of a letter or `_` at `p`: the longest run of a name's characters. */
  predicate NameForm(text: string, p: nat, l: Lexeme)
    requires p < |text|
  {
    && p < l.end <= |text| && (forall k :: p < k < l.end ==> NameChar(text[k]))
    && (l.end < |text| ==> !NameChar(text[l.end]))
    && l.kind == LookupIdent(ToUpper(text[p..l.end]))
  }

  /** A digit, or the first dot from `p` on. */
  predicate NumberGoesOn(text: string, p: nat, k: nat)
    requires p <= k < |text|
  {
    Digit(text[k]) || (text[k] == '.' && '.' !in text[p..k])
  }

  /** The token of a digit, dot or minus at `p`.  A further dot makes it invalid, and so does a minus
      behind a number that starts with one. */
  predicate NumberForm(text: string, p: nat, l: Lexeme)
    requires p < |text|
  {
    && p < l.end <= |text| && (forall k :: p < k < l.end ==> NumberGoesOn(text, p, k))
    && (l.end < |text| ==> !NumberGoesOn(text, p, l.end))
    && l.kind == if l.end < |text| && (text[l.end] == '.' || (text[l.end] == '-' && text[p] == '-')) then INVALID
                 else NUMBER
  }

  /** White space: a vertical tab is among it, a NUL is not. */
  predicate Space(c: char) {
    c == ' ' || c == '\t' || c == '\n' || c == '\U{000B}' || c == '\U{000C}' || c == '\r'
  }

  /** Any other token: it ends in front of the next white space. */
  predicate OtherForm(text: string, p: nat, l: Lexeme)
    requires p < |text|
  {
    && l.kind == OTHER && p <= l.end <= |text| && (forall k :: p <= k < l.end ==> !Space(text[k]))
    && (l.end < |text| ==> Space(text[l.end]))
  }

  predicate TokenForm(text: string, p: nat, l: Lexeme)
    requires p < |text|
  {
    var c := text[p];
    if c == '\0' || c == ' ' || c == '\t' || c == '\U{000C}' || c == '\n' || c == '\r' then l == Lexeme(SPACE, p + 1)
    else if c == '(' then l == Lexeme(LPARENT, p + 1)
    else if c == ')' then l == Lexeme(RPARENT, p + 1)
    else if c == '{' then l == Lexeme(LCURLY, p + 1)
    else if c == '}' then l == Lexeme(RCURLY, p + 1)
    else if c == ',' then l == Lexeme(COMMA, p + 1)
    else if c == '\'' then StringForm(text, p + 1, l)
    else if c == '"' then QuotedForm(text, p + 1, l)
    else if Letter(c) || c == '_' then NameForm(text, p, l)
    else if Digit(c) || c == '.' || c == '-' then NumberForm(text, p, l)
    else OtherForm(text, p, l)
  }

  // ---- The scans find these ends

  lemma {:induction false} StringScanned(text: string, lo: nat, q: nat)
    requires lo <= q <= |text| && forall k :: lo <= k < q ==> !Closes(text, lo, k)
    ensures StringForm(text, lo, ScanString(text, q, Backslashes(text, lo, q) % 2 == 1))
    decreases |text| - q
  {
    if q < |text| && !Closes(text, lo, q) {
      StringScanned(text, lo, q + 1);
    }
  }

  lemma {:induction false} QuotedScanned(text: string, lo: nat, q: nat)
    requires lo <= q <= |text| && forall k :: lo <= k < q ==> NameGoesOn(text, lo, k)
    ensures QuotedForm(text, lo, ScanQuoted(text, q, EvenQuotes(text, lo, q)))
    decreases |text| - q
  {
    if q < |text| && NameGoesOn(text, lo, q) {
      if text[q] == '"' {
        assert q + 1 < |text| && NameChar(text[q + 1]);
        assert NameGoesOn(text, lo, q + 1);
        assert EvenQuotes(text, lo, q + 1) == !EvenQuotes(text, lo, q);
        assert EvenQuotes(text, lo, q + 2) == EvenQuotes(text, lo, q + 1);
        QuotedScanned(text, lo, q + 2);
      } else {
        QuotedScanned(text, lo, q + 1);
      }
    }
  }

  lemma {:induction false} NameScanned(text: string, p: nat, q: nat)
    requires p < q <= |text| && forall k :: p < k < q ==> NameChar(text[k])
    ensures var end := IdentEnd(text, q);
            && (forall k :: p < k < end ==> NameChar(text[k])) && (end < |text| ==> !NameChar(text[end]))
    decreases |text| - q
  {
    if q < |text| && NameChar(text[q]) {
      NameScanned(text, p, q + 1);
    }
  }

  lemma {:induction false} DotSeen(text: string, p: nat, q: nat)
    requires p <= q < |text|
    ensures '.' in text[p..q + 1] <==> '.' in text[p..q] || text[q] == '.'
  {
    assert text[p..q + 1] == text[p..q] + [text[q]];
  }

  lemma {:induction false} NumberScanned(text: string, p: nat, q: nat)
    requires p < q <= |text| && forall k :: p < k < q ==> NumberGoesOn(text, p, k)
    ensures NumberForm(text, p, ScanNumber(text, q, '.' in text[p..q], text[p] == '-'))
    decreases |text| - q
  {
    if q < |text| && NumberGoesOn(text, p, q) {
      DotSeen(text, p, q);
      NumberScanned(text, p, q + 1);
    }
  }

  lemma {:induction false} OtherScanned(text: string, p: nat, q: nat)
    requires p < |text| && p <= q <= |text| && forall k :: p <= k < q ==> !Space(text[k])
    ensures OtherForm(text, p, Lexeme(OTHER, OtherEnd(text, q)))
    decreases |text| - q
  {
    if q < |text| && !Space(text[q]) {
      OtherScanned(text, p, q + 1);
    }
  }

  // ---- They are the only ends

  /** Where the name of a quoted token stops going on. */
  function StopOf(text: string, lo: nat, l: Lexeme): int
    requires lo <= |text|
  {
    if l.kind == EOS then |text|
    else if l.kind == INVALID && lo <= l.end < |text| && BreaksName(text, l.end)
            && !(lo < l.end && OpensNothing(text, lo, l.end - 1)) then l.end
    else l.end - 1
  }

  lemma {:induction false} StopFirst(text: string, lo: nat, l: Lexeme)
    requires lo <= |text| && QuotedForm(text, lo, l)
    ensures lo <= StopOf(text, lo, l) <= |text|
    ensures StopOf(text, lo, l) < |text| ==> !NameGoesOn(text, lo, StopOf(text, lo, l))
    ensures forall k :: lo <= k < StopOf(text, lo, l) ==> NameGoesOn(text, lo, k)
  {
  }

  lemma {:induction false} QuotedUnique(text: string, lo: nat, l: Lexeme, m: Lexeme)
    requires lo <= |text| && QuotedForm(text, lo, l) && QuotedForm(text, lo, m)
    ensures l == m
  {
    StopFirst(text, lo, l);
    StopFirst(text, lo, m);
    assert StopOf(text, lo, l) == StopOf(text, lo, m);
  }

  lemma {:induction false} LexemeForm(text: string, p: nat)
    requires p < |text|
    ensures TokenForm(text, p, LexemeAt(text, p))
  {
    var c := text[p];
    if c == '\'' {
      StringScanned(text, p + 1, p + 1);
    } else if c == '"' {
      QuotedScanned(text, p + 1, p + 1);
    } else if Letter(c) || c == '_' {
      NameScanned(text, p, p + 1);
    } else if Digit(c) || c == '.' || c == '-' {
      assert text[p..p + 1] == [c];
      NumberScanned(text, p, p + 1);
    } else if !Space(c) {
      OtherScanned(text, p, p);
    }
  }

  lemma {:induction false} FormUnique(text: string, p: nat, l: Lexeme, m: Lexeme)
    requires p < |text| && TokenForm(text, p, l) && TokenForm(text, p, m)
    ensures l == m
  {
    if text[p] == '"' {
      QuotedUnique(text, p + 1, l, m);
    }
  }

  /** The token that starts at `p` is exactly the one of this form. */
  lemma {:induction false} LexemeExactly(text: string, p: nat, l: Lexeme)
    requires p < |text|
    ensures LexemeAt(text, p) == l <==> TokenForm(text, p, l)
  {
    LexemeForm(text, p);
    if TokenForm(text, p, l) {
      FormUnique(text, p, l, LexemeAt(text, p));
    }
  }

  /** Letters change case by their place in the alphabet, and nothing else changes. */
  lemma {:induction false} CaseChanged(c: char)
    ensures 'a' <= c <= 'z' ==> UpperChar(c) as int - 'A' as int == c as int - 'a' as int
    ensures 'A' <= c <= 'Z' ==> LowerChar(c) as int - 'a' as int == c as int - 'A' as int
    ensures !('a' <= c <= 'z') ==> UpperChar(c) == c
    ensures !('A' <= c <= 'Z') ==> LowerChar(c) == c
  {
  }

  // ---- Strings as a program writes them

  /** A backslash in front of every backslash and quote. */
  function Escaped(content: string): (s: string)
    ensures |content| <= |s|
  {
    if content == "" then ""
    else if content[0] == '\\' || content[0] == '\'' then ['\\', content[0]] + Escaped(content[1..])
    else [content[0]] + Escaped(content[1..])
  }

  lemma {:induction false} EscapedScanned(text: string, p: nat, content: string, rest: string)
    requires p <= |text| && text[p..] == Escaped(content) + ("'" + rest)
    ensures ScanString(text, p, false) == Lexeme(STRING, p + |Escaped(content)| + 1)
    decreases |content|
  {
    var behind := "'" + rest;
    if content == "" {
      StartsWith(text, p, "'", rest);
      assert text[p] == text[p..][0] == '\'';
    } else {
      var inner := Escaped(content[1..]);
      var head := if content[0] == '\\' || content[0] == '\'' then ['\\', content[0]] else [content[0]];
      assert Escaped(content) == head + inner;
      Concat3(head, inner, behind);
      StartsWith(text, p, head, inner + behind);
      assert text[p] == text[p..p + |head|][0] == head[0];
      if |head| == 2 {
        assert text[p + 1] == text[p..p + |head|][1] == content[0];
      }
      EscapedScanned(text, p + |head|, content[1..], rest);
    }
  }

  /** An escaped content between quotes is one token, whatever follows. */
  lemma {:induction false} EscapedString(content: string, rest: string)
    ensures LexemeAt("'" + Escaped(content) + "'" + rest, 0) == Lexeme(STRING, |Escaped(content)| + 2)
  {
    var text := "'" + Escaped(content) + "'" + rest;
    assert text[1..] == Escaped(content) + ("'" + rest);
    EscapedScanned(text, 1, content, rest);
  }
}
