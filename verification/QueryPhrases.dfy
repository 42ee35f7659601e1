/** A SELECT as its reader takes it: which of its names are columns, aliases and tables, with subqueries
    of any depth.  The machine writes every column re-quoted and everything else as it stands. */
module QueryPhrases {
  import opened Chars
  import opened Tokens
  import opened Lexer
  import opened ColumnWalk
  import opened ColumnPatterns
  import opened ColumnConversion

  // ---- Words

  /** Names, commas and the names of functions. */
  predicate Worded(t: Token) {
    (t.kind == IDENT || t.kind == COMMA || t.kind.Scalar?) && ToUpper(t.literal) != "SELECT"
  }

  predicate ColumnName(t: Token) { Worded(t) && MatchesColumn(ToUpper(t.literal)) }

  predicate Spells(t: Token, word: string) { Worded(t) && ToUpper(t.literal) == word }

  predicate TableKeyword(t: Token) { Spells(t, "FROM") || Spells(t, "JOIN") }

  /** Blanks, numbers, strings and all else that is neither a word nor a parenthesis. */
  predicate Quiet(t: Token) {
    && t.kind != IDENT && t.kind != COMMA && !t.kind.Scalar? && t.kind != LPARENT && t.kind != RPARENT
    && t.kind != EOS && ToUpper(t.literal) != "SELECT"
  }

  // ---- Phrases

  /** What a token is in a query. */
  datatype Role = Column | Alias | KnownAlias | As | Comma | Keyword | TableName | TablePart | PlainWord | Filler

  /** Where in a query a token stands: what the last word in front of it was. */
  datatype Place = Start | BehindColumn | BehindComma | BehindKeyword | BehindTable | Elsewhere

  /** A part of a query.  The token behind a subquery is skipped: if it is a word, it has no role. */
  datatype Phrases =
    | End
    | Part(role: Role, tok: Token, rest: Phrases)
    | Group(open: Token, inner: Phrases, close: Token, rest: Phrases)
    | Subquery(open: Token, select: Token, inner: Phrases, close: Token, skipped: seq<Token>, rest: Phrases)

  /** Whether `t` has this role, the aliases introduced so far being `noted`. */
  predicate Plays(role: Role, t: Token, place: Place, noted: set<string>) {
    match role
    case Column =>
      && ColumnName(t) && ToUpper(t.literal) !in noted
      && (place.Start? || place.BehindComma? || place.Elsewhere?)
    case Alias => ColumnName(t) && place.BehindColumn?
    case KnownAlias => ColumnName(t) && ToUpper(t.literal) in noted && (place.BehindComma? || place.Elsewhere?)
    case As => Spells(t, "AS") && (place.BehindColumn? || place.BehindComma?)
    case Comma => Spells(t, ",") && !place.BehindKeyword?
    case Keyword => TableKeyword(t) && !place.Start?
    case TableName => Worded(t) && !TableKeyword(t) && place.BehindKeyword?
    case TablePart => (ColumnName(t) || Spells(t, "AS")) && place.BehindTable?
    case PlainWord =>
      && Worded(t) && !ColumnName(t) && !Spells(t, ",") && !place.BehindKeyword?
      && (TableKeyword(t) ==> place.Start?) && (Spells(t, "AS") ==> place.Start? || place.Elsewhere?)
    case Filler => Quiet(t)
  }

  function PlaceAfter(role: Role, place: Place): Place {
    match role
    case Column => BehindColumn
    case As => BehindColumn
    case Comma => if place.BehindColumn? || place.BehindComma? then BehindComma else Elsewhere
    case Keyword => BehindKeyword
    case TableName => BehindTable
    case TablePart => BehindTable
    case Filler => place
    case _ => Elsewhere
  }

  function NotedAfter(role: Role, t: Token, noted: set<string>): set<string> {
    if role.Alias? || role.KnownAlias? then noted + {t.literal} else noted
  }

  function PlaceBehind(ph: Phrases, place: Place): Place {
    match ph
    case End => place
    case Part(role, _, rest) => PlaceBehind(rest, PlaceAfter(role, place))
    case Group(_, inner, _, rest) => PlaceBehind(rest, PlaceBehind(inner, place))
    case Subquery(_, _, _, _, _, rest) => PlaceBehind(rest, place)
  }

  function NotedBehind(ph: Phrases, noted: set<string>): set<string> {
    match ph
    case End => noted
    case Part(role, t, rest) => NotedBehind(rest, NotedAfter(role, t, noted))
    case Group(_, inner, _, rest) => NotedBehind(rest, NotedBehind(inner, noted))
    case Subquery(_, _, _, _, _, rest) => NotedBehind(rest, noted)
  }

  function Spell(ph: Phrases, tail: seq<Token>): seq<Token> {
    match ph
    case End => tail
    case Part(_, t, rest) => [t] + Spell(rest, tail)
    case Group(open, inner, close, rest) => [open] + Spell(inner, [close] + Spell(rest, tail))
    case Subquery(open, select, inner, close, skipped, rest) =>
      [open] + ([select] + Spell(inner, [close] + (skipped + Spell(rest, tail))))
  }

  function FirstToken(ph: Phrases, next: Token): Token {
    match ph
    case End => next
    case Part(_, t, _) => t
    case Group(open, _, _, _) => open
    case Subquery(open, _, _, _, _, _) => open
  }

  /** Copied without becoming a state. */
  predicate Stateless(t: Token) {
    t.kind != IDENT && t.kind != COMMA && !t.kind.Scalar? && ToUpper(t.literal) != "SELECT"
  }

  predicate WellFormed(ph: Phrases, place: Place, noted: set<string>, next: Token) {
    match ph
    case End => true
    case Part(role, t, rest) =>
      Plays(role, t, place, noted) && WellFormed(rest, PlaceAfter(role, place), NotedAfter(role, t, noted), next)
    case Group(open, inner, close, rest) =>
      && IsParenthesis(open, LPARENT) && IsParenthesis(close, RPARENT)
      && WellFormed(inner, place, noted, close)
      && WellFormed(rest, PlaceBehind(inner, place), NotedBehind(inner, noted), next)
    case Subquery(open, select, inner, close, skipped, rest) =>
      && IsParenthesis(open, LPARENT) && ToUpper(select.literal) == "SELECT" && select.kind != EOS
      && IsParenthesis(close, RPARENT) && WellFormed(inner, Start, {}, close)
      && (if skipped == [] then Stateless(FirstToken(rest, next))
          else |skipped| == 1 && skipped[0].kind != EOS && skipped[0].kind != LPARENT && skipped[0].kind != RPARENT)
      && WellFormed(rest, place, noted, next)
  }

  predicate IsParenthesis(t: Token, kind: TokenType) {
    t.kind == kind && ToUpper(t.literal) != "SELECT"
  }

  // ---- What is written

  /** Columns are re-quoted, and nothing else. */
  function Reading(ph: Phrases): seq<Emission> {
    match ph
    case End => []
    case Part(role, t, rest) => [Emission(t, if role.Column? then Requote(t.literal) else t.literal)] + Reading(rest)
    case Group(open, inner, close, rest) =>
      [Emission(open, "(")] + (Reading(inner) + ([Emission(close, ")")] + Reading(rest)))
    case Subquery(open, select, inner, close, skipped, rest) =>
      [Emission(open, "(")] + (([Emission(select, select.literal)] + Reading(inner) + [Emission(close, ")")])
                               + (AsTheyStand(skipped) + Reading(rest)))
  }

  // ---- The machine's states

  predicate AtPlace(s: State, place: Place) {
    match place
    case Start => s.SelectState?
    case BehindColumn => s.ColumnState? && !s.nextIsColumnOrFunction
    case BehindComma => s.ColumnState? && s.nextIsColumnOrFunction
    case BehindKeyword => s.TableState? && TableKeyword(s.tok)
    case BehindTable => s.TableState? && Worded(s.tok) && !TableKeyword(s.tok)
    case Elsewhere => s.AlliesState? || s.FunctionOrClauseState?
  }

  /** The machine's aliases are the noted ones; commas may be among them. */
  ghost predicate SameAliases(allies: seq<string>, noted: set<string>) {
    && (forall n :: n in noted ==> MatchesColumn(ToUpper(n)))
    && (forall n :: n != "," ==> (n in allies <==> n in noted))
  }

  ghost predicate Stands(f: Frame, place: Place, noted: set<string>) {
    0 <= f.level && AtPlace(f.state, place) && SameAliases(f.allies, noted)
  }

  lemma {:induction false} UpperTwice(s: string)
    ensures ToUpper(ToUpper(s)) == ToUpper(s)
  {
  }

  lemma {:induction false} ShortWord(s: string)
    requires |s| <= 2 && forall i :: 0 <= i < |s| ==> !('0' <= s[i] <= '9')
    ensures !MatchesColumn(s)
  {
    ColumnExactly(s);
  }

  lemma {:induction false} KeywordNoColumn(s: string)
    requires s == "FROM" || s == "JOIN"
    ensures !MatchesColumn(s)
  {
    ColumnExactly(s);
    forall w | ColumnWord(w)
      ensures !Contains(s, w)
    {
      assert forall i :: 0 <= i <= |s| && Here(s, i, w) ==> i == 0 && s[0..|w|][0] == w[0];
    }
  }

  /** A word that is no column is not among the aliases. */
  lemma {:induction false} NotNoted(allies: seq<string>, noted: set<string>, s: string)
    requires SameAliases(allies, noted) && !MatchesColumn(ToUpper(s)) && ToUpper(s) != ","
    ensures ToUpper(s) !in allies
  {
    UpperTwice(s);
  }

  lemma {:induction false} ColumnNoSign(u: string)
    requires MatchesColumn(u)
    ensures u != "," && u != "AS" && u != "FROM" && u != "JOIN"
  {
    if u == "," || u == "AS" {
      ShortWord(u);
    } else if u == "FROM" || u == "JOIN" {
      KeywordNoColumn(u);
    }
  }

  lemma {:induction false} AliasNoted(allies: seq<string>, noted: set<string>, name: string)
    requires SameAliases(allies, noted) && MatchesColumn(ToUpper(name))
    ensures SameAliases(allies + [name], noted + {name})
  {
  }

  lemma {:induction false} CommaNoted(allies: seq<string>, noted: set<string>)
    requires SameAliases(allies, noted)
    ensures SameAliases(allies + [","], noted)
  {
  }

  lemma {:induction false} CommaLiteral(s: string)
    requires ToUpper(s) == ","
    ensures s == ","
  {
    assert |s| == 1 && UpperChar(s[0]) == ',';
  }

  /** What the state for `t` is, and how `t` is written. */
  predicate Follows(f: Frame, t: Token, state: State, allies: seq<string>, text: string) {
    var s := f.state.Next(t, f.allies);
    s == state && s.Allies(f.allies) == allies && s.Convert() == text
  }

  lemma {:induction false} ColumnFollows(f: Frame, t: Token, place: Place, noted: set<string>)
    requires Stands(f, place, noted) && Plays(Column, t, place, noted)
    ensures Follows(f, t, State.ColumnState(t, false), f.allies, Requote(t.literal))
  {
    ColumnNoSign(ToUpper(t.literal));
  }

  lemma {:induction false} AliasFollows(f: Frame, role: Role, t: Token, place: Place, noted: set<string>)
    requires Stands(f, place, noted) && Plays(role, t, place, noted) && (role.Alias? || role.KnownAlias?)
    ensures Follows(f, t, AlliesState(t), f.allies + [t.literal], t.literal)
  {
    ColumnNoSign(ToUpper(t.literal));
    assert ToUpper(",") == ",";
  }

  lemma {:induction false} AsFollows(f: Frame, t: Token, place: Place, noted: set<string>)
    requires Stands(f, place, noted) && Plays(As, t, place, noted)
    ensures Follows(f, t, State.ColumnState(t, false), f.allies, t.literal)
  {
    ShortStays(t.literal);
  }

  lemma {:induction false} ColumnCommaFollows(f: Frame, t: Token, place: Place, noted: set<string>)
    requires Stands(f, place, noted) && Plays(Comma, t, place, noted) && (place.BehindColumn? || place.BehindComma?)
    ensures Follows(f, t, State.ColumnState(t, true), f.allies, t.literal)
  {
    ShortStays(t.literal);
  }

  /** Any other comma; behind an alias it is noted like one. */
  lemma {:induction false} OtherCommaFollows(f: Frame, t: Token, place: Place, noted: set<string>)
    requires Stands(f, place, noted) && Plays(Comma, t, place, noted) && !place.BehindColumn? && !place.BehindComma?
    ensures var a := if f.state.AlliesState? && "," !in f.allies then f.allies + [","] else f.allies;
            var s := if f.state.AlliesState? then AlliesState(t) else FunctionOrClauseState(t);
            Follows(f, t, s, a, t.literal)
  {
    CommaLiteral(t.literal);
    ShortWord(",");
    if f.state.TableState? {
      assert ToUpper(f.state.tok.literal) != "FROM" && ToUpper(f.state.tok.literal) != "JOIN";
    }
  }

  lemma {:induction false} TableFollows(f: Frame, role: Role, t: Token, place: Place, noted: set<string>)
    requires Stands(f, place, noted) && Plays(role, t, place, noted)
    requires role.Keyword? || role.TableName? || role.TablePart?
    ensures Follows(f, t, TableState(t), f.allies, t.literal)
  {
    var u := ToUpper(t.literal);
    if role.Keyword? {
      KeywordNoColumn(u);
      NotNoted(f.allies, noted, t.literal);
    }
  }

  lemma {:induction false} WordFollows(f: Frame, t: Token, place: Place, noted: set<string>)
    requires Stands(f, place, noted) && Plays(PlainWord, t, place, noted)
    ensures Follows(f, t, FunctionOrClauseState(t), f.allies, t.literal)
  {
    NotNoted(f.allies, noted, t.literal);
  }

  /** A token in its role leads to the place and the aliases behind it, and only a column is re-quoted. */
  lemma {:induction false} RoleRead(f: Frame, role: Role, t: Token, place: Place, noted: set<string>, s: State)
    requires Stands(f, place, noted) && Plays(role, t, place, noted) && !role.Filler?
    requires s == f.state.Next(t, f.allies)
    ensures Stands(Frame(s, s.Allies(f.allies), f.level), PlaceAfter(role, place), NotedAfter(role, t, noted))
    ensures s.Convert() == if role.Column? then Requote(t.literal) else t.literal
  {
    match role
    case Column => ColumnFollows(f, t, place, noted);
    case Alias => AliasFollows(f, role, t, place, noted); AliasNoted(f.allies, noted, t.literal);
    case KnownAlias => AliasFollows(f, role, t, place, noted); AliasNoted(f.allies, noted, t.literal);
    case As => AsFollows(f, t, place, noted);
    case Comma =>
      if place.BehindColumn? || place.BehindComma? {
        ColumnCommaFollows(f, t, place, noted);
      } else {
        OtherCommaFollows(f, t, place, noted);
        CommaNoted(f.allies, noted);
      }
    case PlainWord => WordFollows(f, t, place, noted);
    case _ => TableFollows(f, role, t, place, noted);
  }

  // ---- Whole phrases

  lemma {:induction false} PartRead(
      f: Frame, role: Role, t: Token, place: Place, noted: set<string>, ts: seq<Token>, all: seq<Token>)
    returns (g: Frame)
    requires Stands(f, place, noted) && Plays(role, t, place, noted) && all == [t] + ts
    ensures Stands(g, PlaceAfter(role, place), NotedAfter(role, t, noted)) && g.level == f.level
    ensures After(f, all)
         == Before([Emission(t, if role.Column? then Requote(t.literal) else t.literal)], After(g, ts))
  {
    assert all[1..] == ts;
    if role.Filler? {
      g := f;
    } else {
      var s := f.state.Next(t, f.allies);
      g := Frame(s, s.Allies(f.allies), f.level);
      RoleRead(f, role, t, place, noted, s);
    }
  }

  lemma {:induction false} OpenRead(f: Frame, open: Token, ts: seq<Token>, all: seq<Token>)
    requires 0 <= f.level && IsParenthesis(open, LPARENT) && all == [open] + ts
    ensures After(f, all) == Before([Emission(open, "(")], After(f.(level := f.level + 1), ts))
  {
    assert all[1..] == ts;
  }

  lemma {:induction false} CloseRead(f: Frame, close: Token, ts: seq<Token>, all: seq<Token>)
    requires 0 < f.level && IsParenthesis(close, RPARENT) && all == [close] + ts
    ensures After(f, all) == Before([Emission(close, ")")], After(f.(level := f.level - 1), ts))
  {
    assert all[1..] == ts;
  }

  /** At its own closing parenthesis a subquery's machine stops. */
  lemma {:induction false} LastClose(f: Frame, close: Token, ts: seq<Token>, all: seq<Token>)
    requires f.level == 0 && IsParenthesis(close, RPARENT) && all == [close] + ts
    ensures After(f, all) == Written([Emission(close, ")")], ts)
  {
    assert all[1..] == ts;
  }

  /** What follows a subquery is copied, whatever it is. */
  lemma {:induction false} Skipped(f: Frame, skipped: seq<Token>, ts: seq<Token>, all: seq<Token>)
    requires 0 <= f.level && all == skipped + ts
    requires if skipped == [] then Stateless(HeadOf(ts))
             else |skipped| == 1 && skipped[0].kind != EOS && skipped[0].kind != LPARENT && skipped[0].kind != RPARENT
    ensures AtHead(f, false, HeadOf(all), TailOf(all)) == Before(AsTheyStand(skipped), After(f, ts))
  {
    if skipped == [] {
      assert all == ts;
      assert AsTheyStand(skipped) == [];
    } else {
      assert all[1..] == ts;
      assert skipped[1..] == [];
      assert AsTheyStand(skipped) == [Emission(skipped[0], skipped[0].literal)];
    }
  }

  lemma {:induction false} SpellFirst(ph: Phrases, tail: seq<Token>)
    ensures HeadOf(Spell(ph, tail)) == FirstToken(ph, HeadOf(tail))
  {
  }

  /** The machine reads a part of a query from any place on: it writes the reading and goes on behind it. */
  lemma {:induction false} PhrasesRead(f: Frame, ph: Phrases, place: Place, noted: set<string>, tail: seq<Token>)
    returns (g: Frame)
    requires Stands(f, place, noted) && WellFormed(ph, place, noted, HeadOf(tail))
    ensures Stands(g, PlaceBehind(ph, place), NotedBehind(ph, noted)) && g.level == f.level
    ensures After(f, Spell(ph, tail)) == Before(Reading(ph), After(g, tail))
    decreases ph, 1
  {
    match ph
    case End =>
      g := f;
      assert Before([], After(f, tail)) == After(f, tail);
    case Part(role, t, rest) =>
      var h := PartRead(f, role, t, place, noted, Spell(rest, tail), Spell(ph, tail));
      g := PhrasesRead(h, rest, PlaceAfter(role, place), NotedAfter(role, t, noted), tail);
      BeforeTwice([Emission(t, if role.Column? then Requote(t.literal) else t.literal)], Reading(rest), After(g, tail));
    case Group(_, _, _, _) =>
      g := GroupRead(f, ph, place, noted, tail);
    case Subquery(_, _, _, _, _, _) =>
      g := SubqueryRead(f, ph, place, noted, tail);
  }

  lemma {:induction false} GroupRead(f: Frame, ph: Phrases, place: Place, noted: set<string>, tail: seq<Token>)
    returns (g: Frame)
    requires ph.Group? && Stands(f, place, noted) && WellFormed(ph, place, noted, HeadOf(tail))
    ensures Stands(g, PlaceBehind(ph, place), NotedBehind(ph, noted)) && g.level == f.level
    ensures After(f, Spell(ph, tail)) == Before(Reading(ph), After(g, tail))
    decreases ph, 0
  {
    var behind := Spell(ph.rest, tail);
    var inside := Spell(ph.inner, [ph.close] + behind);
    OpenRead(f, ph.open, inside, Spell(ph, tail));
    var h := PhrasesRead(f.(level := f.level + 1), ph.inner, place, noted, [ph.close] + behind);
    CloseRead(h, ph.close, behind, [ph.close] + behind);
    g := PhrasesRead(h.(level := f.level), ph.rest, PlaceBehind(ph.inner, place), NotedBehind(ph.inner, noted), tail);
    var w := After(g, tail);
    BeforeTwice([Emission(ph.close, ")")], Reading(ph.rest), w);
    BeforeTwice(Reading(ph.inner), [Emission(ph.close, ")")] + Reading(ph.rest), w);
    BeforeTwice([Emission(ph.open, "(")], Reading(ph.inner) + ([Emission(ph.close, ")")] + Reading(ph.rest)), w);
  }

  /** A subquery's own machine writes the subquery, and stops behind its parenthesis. */
  lemma {:induction false} InnerRead(select: Token, inner: Phrases, close: Token, ts: seq<Token>, all: seq<Token>)
    requires ToUpper(select.literal) == "SELECT" && select.kind != EOS && IsParenthesis(close, RPARENT)
    requires WellFormed(inner, Start, {}, close) && all == [select] + Spell(inner, [close] + ts)
    ensures Machine(all)
         == Written([Emission(select, select.literal)] + Reading(inner) + [Emission(close, ")")], ts)
    decreases inner, 2
  {
    var f := Frame(SelectState(select), [], 0);
    assert all[1..] == Spell(inner, [close] + ts);
    var g := PhrasesRead(f, inner, Start, {}, [close] + ts);
    LastClose(g, close, ts, [close] + ts);
  }

  lemma {:induction false} SubqueryRead(f: Frame, ph: Phrases, place: Place, noted: set<string>, tail: seq<Token>)
    returns (g: Frame)
    requires ph.Subquery? && Stands(f, place, noted) && WellFormed(ph, place, noted, HeadOf(tail))
    ensures Stands(g, PlaceBehind(ph, place), NotedBehind(ph, noted)) && g.level == f.level
    ensures After(f, Spell(ph, tail)) == Before(Reading(ph), After(g, tail))
    decreases ph, 0
  {
    var behind := Spell(ph.rest, tail);
    var closed := ph.skipped + behind;
    var inside := [ph.select] + Spell(ph.inner, [ph.close] + closed);
    OpenRead(f, ph.open, inside, Spell(ph, tail));
    InnerRead(ph.select, ph.inner, ph.close, closed, inside);
    SpellFirst(ph.rest, tail);
    Skipped(f, ph.skipped, behind, closed);
    g := PhrasesRead(f, ph.rest, place, noted, tail);
    var w := After(g, tail);
    var own := [Emission(ph.select, ph.select.literal)] + Reading(ph.inner) + [Emission(ph.close, ")")];
    BeforeTwice(AsTheyStand(ph.skipped), Reading(ph.rest), w);
    BeforeTwice(own, AsTheyStand(ph.skipped) + Reading(ph.rest), w);
    BeforeTwice([Emission(ph.open, "(")], own + (AsTheyStand(ph.skipped) + Reading(ph.rest)), w);
  }

  /** A whole query is written as it is read. */
  lemma {:induction false} QueryRead(select: Token, ph: Phrases, all: seq<Token>)
    requires ToUpper(select.literal) == "SELECT" && select.kind != EOS && WellFormed(ph, Start, {}, END_OF_TEXT)
    requires all == [select] + Spell(ph, [])
    ensures Machine(all) == Written([Emission(select, select.literal)] + Reading(ph), [])
  {
    var f := Frame(SelectState(select), [], 0);
    assert all[1..] == Spell(ph, []);
    var g := PhrasesRead(f, ph, Start, {}, []);
  }

  /** So is a text whose tokens it is. */
  lemma {:induction false} TextRead(query: string, select: Token, ph: Phrases)
    requires Lexable(query, 0) && TokensFrom(query, 0) == [select] + Spell(ph, [])
    requires ToUpper(select.literal) == "SELECT" && select.kind != EOS && WellFormed(ph, Start, {}, END_OF_TEXT)
    ensures UnquoteColumns(query) == Render([Emission(select, select.literal)] + Reading(ph))
  {
    QueryRead(select, ph, TokensFrom(query, 0));
  }

  // ---- Every word has one role

  lemma {:induction false} RoleFound(t: Token, place: Place, noted: set<string>) returns (role: Role)
    requires Worded(t) && (place.Start? ==> noted == {})
    ensures Plays(role, t, place, noted) && !role.Filler?
  {
    role :=
      if place.BehindKeyword? then if TableKeyword(t) then Keyword else TableName
      else if ColumnName(t) then
        if place.BehindColumn? then Alias
        else if place.BehindTable? then TablePart
        else if ToUpper(t.literal) in noted then KnownAlias
        else Column
      else if Spells(t, ",") then Comma
      else if TableKeyword(t) && !place.Start? then Keyword
      else if Spells(t, "AS") && (place.BehindColumn? || place.BehindComma?) then As
      else if Spells(t, "AS") && place.BehindTable? then TablePart
      else PlainWord;
  }

  /** A word plays exactly one role wherever it stands: no query has two readings, and none has no reading
      for want of a role. */
  lemma {:induction false} OneRole(t: Token, place: Place, noted: set<string>)
    requires Worded(t) && (place.Start? ==> noted == {})
    ensures exists role :: Plays(role, t, place, noted)
    ensures forall r, q :: Plays(r, t, place, noted) && Plays(q, t, place, noted) ==> r == q
  {
    var role := RoleFound(t, place, noted);
    if ColumnName(t) {
      ColumnNoSign(ToUpper(t.literal));
    }
  }
}
