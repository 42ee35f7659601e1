/** Texts put together token by token, from the end, and read back as the same tokens. */
module TextSteps {
  import opened Chars
  import opened Tokens
  import opened LexerProperties
  import opened LexerPrinting

  const OPEN := Token(LCURLY, "{")
  const CLOSE := Token(RCURLY, "}")
  const LEFT := Token(LPARENT, "(")
  const RIGHT := Token(RPARENT, ")")
  const SEPARATOR := Token(COMMA, ",")
  const BLANK := Token(SPACE, " ")

  /** The tokens stay apart, and `text` is their text. */
  predicate Prints(ts: seq<Token>, text: string) {
    Separated(ts) && Flatten(ts) == text
  }

  lemma {:induction false} NoTokens()
    ensures Prints([], "")
  {
  }

  /** One more token in front; `next` is the first character behind it. */
  lemma {:induction false} InFront(t: Token, rest: seq<Token>, text: string, next: string)
    requires Prints(rest, text) && next == FirstOf(text) && StandsAlone(t, next)
    ensures Prints([t] + rest, t.literal + text)
    ensures FirstOf(t.literal + text) == FirstOf(t.literal)
  {
    assert ([t] + rest)[1..] == rest;
  }

  /** A delimiter or a blank in front of anything. */
  lemma {:induction false} SignInFront(t: Token, rest: seq<Token>, text: string)
    requires Prints(rest, text)
    requires t == OPEN || t == CLOSE || t == LEFT || t == RIGHT || t == SEPARATOR || t == BLANK
    ensures Prints([t] + rest, t.literal + text)
    ensures FirstOf(t.literal + text) == t.literal
  {
    assert (t.literal + FirstOf(text))[0] == t.literal[0];
    InFront(t, rest, text, FirstOf(text));
  }

  lemma {:induction false} WordEnd(s: string, p: nat, e: nat)
    requires p <= e <= |s| && (forall i :: p <= i < e ==> IsIdentChar(s[i])) && (e < |s| ==> !IsIdentChar(s[e]))
    ensures IdentEnd(s, p) == e
    decreases e - p
  {
    if p < e {
      WordEnd(s, p + 1, e);
    }
  }

  /** A word that is looked up as what the token says. */
  predicate Word(t: Token) {
    && t.literal != "" && StartsIdent(t.literal[0]) && (forall i :: 0 < i < |t.literal| ==> IsIdentChar(t.literal[i]))
    && LookupIdent(ToUpper(t.literal)) == t.kind
  }

  /** A word in front of something that does not continue it. */
  lemma {:induction false} WordInFront(t: Token, rest: seq<Token>, text: string)
    requires Word(t) && Prints(rest, text) && (text != "" ==> !IsIdentChar(text[0]))
    ensures Prints([t] + rest, t.literal + text)
  {
    var next := FirstOf(text);
    var s, n := t.literal + next, |t.literal|;
    WordEnd(s, 1, n);
    assert s[0..n] == t.literal;
    WordAlone(t, next);
    InFront(t, rest, text, next);
  }

  lemma {:induction false} WordAlone(t: Token, next: string)
    requires t.literal != "" && StartsIdent(t.literal[0]) && IdentEnd(t.literal + next, 1) == |t.literal|
    requires (t.literal + next)[0..|t.literal|] == t.literal && LookupIdent(ToUpper(t.literal)) == t.kind
    ensures StandsAlone(t, next)
  {
  }

  /** A blank and a word in front. */
  lemma {:induction false} BlankAndWord(t: Token, rest: seq<Token>, text: string)
    requires Word(t) && Prints(rest, text) && (text != "" ==> !IsIdentChar(text[0]))
    ensures Prints([BLANK] + ([t] + rest), " " + (t.literal + text))
  {
    WordInFront(t, rest, text);
    SignInFront(BLANK, [t] + rest, t.literal + text);
  }

  lemma {:induction false} StringEnds(s: string, p: nat, e: nat)
    requires p < e < |s| && s[e] == '\'' && forall i :: p <= i < e ==> s[i] != '\'' && s[i] != '\\'
    ensures ScanString(s, p, false) == Lexeme(STRING, e + 1)
    decreases e - p
  {
    if p + 1 < e {
      StringEnds(s, p + 1, e);
    }
  }
}
