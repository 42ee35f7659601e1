/** Two queries that use their own alias, from their characters to what is left of them. */
module AliasExample {
  import opened Chars
  import opened Tokens
  import opened Lexer
  import opened LexerProperties
  import opened LexerPrinting
  import opened ColumnWalk
  import opened ColumnPatterns
  import opened QueryPhrases
  import RequotedText
  import opened TextSteps
  import opened RequoteExample

  const VALUE := Token(IDENT, "value")
  const ALIAS := Token(IDENT, "\"tags.a\"")
  const ORDER := Token(IDENT, "ORDER")
  const BY := Token(IDENT, "BY")
  const AS := Token(IDENT, "AS")

  // ---- Reading

  predicate IsWord(t: Token) {
    t == SELECT || t == FROM || t == VALUE || t == ORDER || t == BY || t == AS || t == Name('x')
  }

  lemma {:induction false} Words(t: Token)
    requires IsWord(t)
    ensures Word(t)
  {
    if t == SELECT || t == FROM {
      WordKind(t);
    } else {
      OtherWords(t);
    }
  }

  lemma {:induction false} OtherWords(t: Token)
    requires t == VALUE || t == ORDER || t == BY || t == AS || t == Name('x')
    ensures LookupIdent(ToUpper(t.literal)) == IDENT
  {
    if t == VALUE || t == Name('x') {
      LowerWords(t);
    } else {
      assert ToUpper(t.literal) == t.literal;
    }
  }

  lemma {:induction false} LowerWords(t: Token)
    requires t == VALUE || t == Name('x')
    ensures LookupIdent(ToUpper(t.literal)) == IDENT
  {
    assert ToUpper("value") == "VALUE" && ToUpper("x") == "X";
  }

  lemma {:induction false} QuotedEnds(s: string, p: nat)
    requires p < |s| && s[p] == '"' && At(s, p + 1) != '.'
    ensures ScanQuoted(s, p, true) == Lexeme(IDENT, p + 1)
  {
  }

  lemma {:induction false} QuotedGoesOn(s: string, p: nat)
    requires p < |s| && IsIdentChar(s[p])
    ensures ScanQuoted(s, p, true) == ScanQuoted(s, p + 1, true)
  {
  }

  lemma {:induction false} AliasStands(next: string)
    requires next == " " || next == ""
    ensures StandsAlone(ALIAS, next)
  {
    var s := ALIAS.literal + next;
    QuotedGoesOn(s, 1);
    QuotedGoesOn(s, 2);
    QuotedGoesOn(s, 3);
    QuotedGoesOn(s, 4);
    QuotedGoesOn(s, 5);
    QuotedGoesOn(s, 6);
    QuotedEnds(s, 7);
  }

  // ---- What the words are

  lemma {:induction false} AliasUpper()
    ensures ToUpper("\"tags.a\"") == "\"TAGS.A\"" && ToUpper("value") == "VALUE"
  {
  }

  lemma {:induction false} Columns()
    ensures ColumnName(ALIAS) && ColumnName(VALUE)
  {
    AliasUpper();
    assert Here("\"TAGS.A\"", 1, "TAGS") && Here("VALUE", 0, "VALUE");
    assert Contains("\"TAGS.A\"", "TAGS") && Contains("VALUE", "VALUE");
    ColumnExactly("\"TAGS.A\"");
    ColumnExactly("VALUE");
  }

  lemma {:induction false} AliasConverted(s: string, r: string)
    requires s == "\"tags.a\"" && r == "\"tags\".\"a\""
    ensures Requote(s) == r
  {
    assert ToUpper("tags") == "TAGS";
    AliasParts(s, r);
    TwoNames("tags", "a", s, r);
  }

  lemma {:induction false} AliasParts(s: string, r: string)
    requires s == "\"tags.a\"" && r == "\"tags\".\"a\""
    ensures s == "\"" + "tags" + "." + "a" + "\"" && r == "\"" + "tags" + "\".\"" + "a" + "\""
  {
  }

  /** Words in which no column is mentioned. */
  lemma {:induction false} NoColumns()
    ensures !MatchesColumn("ORDER") && !MatchesColumn("BY")
  {
    assert !MentionsColumn("BY", 1);
    assert !MentionsColumn("ORDER", 4);
    assert !MentionsColumn("ORDER", 3);
    assert !MentionsColumn("ORDER", 2);
    assert !MentionsColumn("ORDER", 1);
  }

  lemma {:induction false} Roles(noted: set<string>)
    requires noted == {"\"tags.a\""}
    ensures Plays(Column, VALUE, Start, {}) && Plays(As, AS, BehindColumn, {})
    ensures Plays(Alias, ALIAS, BehindColumn, {}) && NotedAfter(Alias, ALIAS, {}) == noted
    ensures Plays(Column, ALIAS, Elsewhere, noted)
  {
    Columns();
    AliasUpper();
    assert "\"TAGS.A\""[1] != "\"tags.a\""[1];
    assert ToUpper("AS") == "AS";
  }

  lemma {:induction false} ClauseRoles(noted: set<string>)
    ensures Plays(Keyword, FROM, Elsewhere, noted) && Plays(TableName, Name('x'), BehindKeyword, noted)
    ensures Plays(PlainWord, ORDER, BehindTable, noted) && Plays(PlainWord, BY, Elsewhere, noted)
  {
    NoColumns();
    assert ToUpper("FROM") == "FROM" && ToUpper("x") == "X";
    assert ToUpper("ORDER") == "ORDER" && ToUpper("BY") == "BY";
  }

  // ---- Reading and writing

  /** The phrases stand for `text`, and are written as `result`. */
  predicate Shows(ph: Phrases, place: Place, noted: set<string>, text: string, result: string) {
    && WellFormed(ph, place, noted, END_OF_TEXT) && Prints(Spell(ph, []), text)
    && Render(Reading(ph)) == result
  }

  lemma {:induction false} OneMore(
      role: Role, t: Token, rest: Phrases, place: Place, noted: set<string>, text: string, written: string,
      result: string)
    requires Shows(rest, PlaceAfter(role, place), NotedAfter(role, t, noted), text, result)
    requires Plays(role, t, place, noted) && StandsAlone(t, FirstOf(text))
    requires written == if role.Column? then Requote(t.literal) else t.literal
    ensures Shows(Part(role, t, rest), place, noted, t.literal + text, written + result)
  {
    InFront(t, Spell(rest, []), text, FirstOf(text));
    assert Reading(Part(role, t, rest))[1..] == Reading(rest);
  }

  lemma {:induction false} BlankMore(rest: Phrases, place: Place, noted: set<string>, text: string, result: string)
    requires Shows(rest, place, noted, text, result)
    ensures Shows(Part(Filler, BLANK, rest), place, noted, " " + text, " " + result) && FirstOf(" " + text) == " "
  {
    hide WellFormed, Spell, Reading;
    SignInFront(BLANK, Spell(rest, []), text);
    assert StandsAlone(BLANK, FirstOf(text));
    OneMore(Filler, BLANK, rest, place, noted, text, " ", result);
  }

  /** A word and the blank in front of it, in front of a blank. */
  lemma {:induction false} WordMore(
      role: Role, t: Token, rest: Phrases, place: Place, noted: set<string>, text: string, written: string,
      result: string)
    requires Shows(rest, PlaceAfter(role, place), NotedAfter(role, t, noted), text, result)
    requires Plays(role, t, place, noted) && StandsAlone(t, FirstOf(text))
    requires written == if role.Column? then Requote(t.literal) else t.literal
    ensures Shows(Part(Filler, BLANK, Part(role, t, rest)), place, noted, " " + (t.literal + text),
                  " " + (written + result))
    ensures FirstOf(" " + (t.literal + text)) == " "
  {
    OneMore(role, t, rest, place, noted, text, written, result);
    BlankMore(Part(role, t, rest), place, noted, t.literal + text, written + result);
  }

  lemma {:induction false} WordsStand(t: Token)
    requires IsWord(t)
    ensures StandsAlone(t, " ")
  {
    Words(t);
    WordInFront(t, [BLANK], " ");
  }

  /** ` FROM x ORDER BY ` in front of `last`. */
  function ClauseText(last: string): string {
    " " + ("FROM" + (" " + ("x" + (" " + ("ORDER" + (" " + ("BY" + (" " + last))))))))
  }

  /** The clauses behind the alias, which is not the same in upper case. */
  lemma {:induction false} ClauseShows(noted: set<string>, last: string, written: string) returns (ph: Phrases)
    requires noted == {"\"tags.a\""} && last == "\"tags.a\"" + "" && written == "\"tags\".\"a\"" + ""
    ensures Shows(ph, Elsewhere, noted, ClauseText(last), ClauseText(written))
    ensures FirstOf(ClauseText(last)) == " "
  {
    ClauseRoles(noted);
    LastShows(noted, last, written);
    ph := Part(Column, ALIAS, End);
    BlankMore(ph, Elsewhere, noted, last, written);
    ph := Part(Filler, BLANK, ph);
    WordsStand(BY);
    WordsStand(ORDER);
    WordsStand(FROM);
    WordsStand(Name('x'));
    var t0, r0 := " " + last, " " + written;
    WordMore(PlainWord, BY, ph, Elsewhere, noted, t0, "BY", r0);
    ph := Part(Filler, BLANK, Part(PlainWord, BY, ph));
    var t1, r1 := " " + ("BY" + t0), " " + ("BY" + r0);
    WordMore(PlainWord, ORDER, ph, BehindTable, noted, t1, "ORDER", r1);
    ph := Part(Filler, BLANK, Part(PlainWord, ORDER, ph));
    var t2, r2 := " " + ("ORDER" + t1), " " + ("ORDER" + r1);
    WordMore(TableName, Name('x'), ph, BehindKeyword, noted, t2, "x", r2);
    ph := Part(Filler, BLANK, Part(TableName, Name('x'), ph));
    var t3, r3 := " " + ("x" + t2), " " + ("x" + r2);
    WordMore(Keyword, FROM, ph, Elsewhere, noted, t3, "FROM", r3);
    ph := Part(Filler, BLANK, Part(Keyword, FROM, ph));
  }

  lemma {:induction false} LastShows(noted: set<string>, last: string, written: string)
    requires noted == {"\"tags.a\""} && last == "\"tags.a\"" + "" && written == "\"tags\".\"a\"" + ""
    ensures Shows(Part(Column, ALIAS, End), Elsewhere, noted, last, written)
  {
    Roles(noted);
    AliasStands("");
    AliasConverted("\"tags.a\"", "\"tags\".\"a\"");
    NoTokens();
    OneMore(Column, ALIAS, End, Elsewhere, noted, "", "\"tags\".\"a\"", "");
  }

  /** With SELECT in front it is a query. */
  lemma {:induction false} QueryShows(ph: Phrases, text: string, result: string, query: string)
    requires Shows(ph, Start, {}, text, result) && FirstOf(text) == " "
    requires query == "SELECT" + text && VERTICAL_TAB !in query
    ensures Lexable(query, 0) && UnquoteColumns(query) == "SELECT" + result
  {
    WordsStand(SELECT);
    assert ToUpper("SELECT") == "SELECT";
    var ts := [SELECT] + Spell(ph, []);
    InFront(SELECT, Spell(ph, []), text, " ");
    ReadBack(query, ts);
    QueryRead(SELECT, ph, ts);
    var out := [Emission(SELECT, "SELECT")] + Reading(ph);
    assert out[1..] == Reading(ph);
  }

  /** ` value "tags.a"` in front of such clauses. */
  lemma {:induction false} ListShows(clause: Phrases, text: string, result: string) returns (ph: Phrases)
    requires Shows(clause, Elsewhere, {"\"tags.a\""}, text, result) && FirstOf(text) == " "
    ensures Shows(ph, Start, {}, " " + ("value" + (" " + ("\"tags.a\"" + text))),
                  " " + ("value" + (" " + ("\"tags.a\"" + result))))
  {
    ph := NameShows(clause, text, result);
    ph := ValueShows(ph, " " + ("\"tags.a\"" + text), " " + ("\"tags.a\"" + result));
  }

  /** The same with AS. */
  lemma {:induction false} AsListShows(clause: Phrases, text: string, result: string) returns (ph: Phrases)
    requires Shows(clause, Elsewhere, {"\"tags.a\""}, text, result) && FirstOf(text) == " "
    ensures Shows(ph, Start, {}, " " + ("value" + (" " + ("AS" + (" " + ("\"tags.a\"" + text))))),
                  " " + ("value" + (" " + ("AS" + (" " + ("\"tags.a\"" + result))))))
  {
    ph := NameShows(clause, text, result);
    Roles({"\"tags.a\""});
    WordsStand(AS);
    var t, r := " " + ("\"tags.a\"" + text), " " + ("\"tags.a\"" + result);
    WordMore(As, AS, ph, BehindColumn, {}, t, "AS", r);
    ph := ValueShows(Part(Filler, BLANK, Part(As, AS, ph)), " " + ("AS" + t), " " + ("AS" + r));
  }

  lemma {:induction false} NameShows(clause: Phrases, text: string, result: string) returns (ph: Phrases)
    requires Shows(clause, Elsewhere, {"\"tags.a\""}, text, result) && FirstOf(text) == " "
    ensures Shows(ph, BehindColumn, {}, " " + ("\"tags.a\"" + text), " " + ("\"tags.a\"" + result))
  {
    Roles({"\"tags.a\""});
    AliasStands(" ");
    WordMore(Alias, ALIAS, clause, BehindColumn, {}, text, "\"tags.a\"", result);
    ph := Part(Filler, BLANK, Part(Alias, ALIAS, clause));
  }

  lemma {:induction false} ValueShows(named: Phrases, text: string, result: string) returns (ph: Phrases)
    requires Shows(named, BehindColumn, {}, text, result) && FirstOf(text) == " "
    ensures Shows(ph, Start, {}, " " + ("value" + text), " " + ("value" + result))
  {
    Roles({"\"tags.a\""});
    WordsStand(VALUE);
    RequotedText.NoPoint("value");
    WordMore(Column, VALUE, named, Start, {}, text, "value", result);
    ph := Part(Filler, BLANK, Part(Column, VALUE, named));
  }

  // ---- The queries

  lemma {:induction false} ClauseWritten(last: string)
    ensures ClauseText(last) == " FROM x ORDER BY " + last
  {
  }

  lemma {:induction false} FrontWritten(last: string, query: string)
    requires query == "SELECT value \"tags.a\" FROM x ORDER BY " + last
    ensures query == "SELECT" + (" " + ("value" + (" " + ("\"tags.a\"" + ClauseText(last)))))
  {
    ClauseWritten(last);
  }

  lemma {:induction false} AsFrontWritten(last: string, query: string)
    requires query == "SELECT value AS \"tags.a\" FROM x ORDER BY " + last
    ensures query == "SELECT" + (" " + ("value" + (" " + ("AS" + (" " + ("\"tags.a\"" + ClauseText(last)))))))
  {
    ClauseWritten(last);
  }

  lemma {:induction false} QueriesClean(query: string, last: string)
    requires last == "\"tags.a\""
    requires query == "SELECT value \"tags.a\" FROM x ORDER BY " + last
             || query == "SELECT value AS \"tags.a\" FROM x ORDER BY " + last
    ensures VERTICAL_TAB !in query
  {
  }

  /** An alias is kept where it is introduced; in lower case it is converted where it is used. */
  lemma {:induction false} AliasUsed(query: string, result: string)
    requires query == "SELECT value \"tags.a\" FROM x ORDER BY " + "\"tags.a\""
    requires result == "SELECT value \"tags.a\" FROM x ORDER BY " + "\"tags\".\"a\""
    ensures Lexable(query, 0) && UnquoteColumns(query) == result
  {
    var last, written := "\"tags.a\"" + "", "\"tags\".\"a\"" + "";
    var ph := ClauseShows({"\"tags.a\""}, last, written);
    ph := ListShows(ph, ClauseText(last), ClauseText(written));
    FrontWritten(last, query);
    FrontWritten(written, result);
    QueriesClean(query, last);
    QueryShows(ph, " " + ("value" + (" " + ("\"tags.a\"" + ClauseText(last)))),
               " " + ("value" + (" " + ("\"tags.a\"" + ClauseText(written)))), query);
  }

  /** The same with AS between the column and its alias. */
  lemma {:induction false} AsAliasUsed(query: string, result: string)
    requires query == "SELECT value AS \"tags.a\" FROM x ORDER BY " + "\"tags.a\""
    requires result == "SELECT value AS \"tags.a\" FROM x ORDER BY " + "\"tags\".\"a\""
    ensures Lexable(query, 0) && UnquoteColumns(query) == result
  {
    var last, written := "\"tags.a\"" + "", "\"tags\".\"a\"" + "";
    var ph := ClauseShows({"\"tags.a\""}, last, written);
    ph := AsListShows(ph, ClauseText(last), ClauseText(written));
    AsFrontWritten(last, query);
    AsFrontWritten(written, result);
    QueriesClean(query, last);
    QueryShows(ph, " " + ("value" + (" " + ("AS" + (" " + ("\"tags.a\"" + ClauseText(last)))))),
               " " + ("value" + (" " + ("AS" + (" " + ("\"tags.a\"" + ClauseText(written)))))), query);
  }
}
