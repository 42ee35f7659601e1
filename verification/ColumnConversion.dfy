/** Which tokens the machine re-quotes: no others than columns, all columns of a plain select list, and
    no table name. */
module ColumnConversion {
  import opened Chars
  import opened Tokens
  import opened Lexer
  import opened ColumnWalk

  // ---- Only columns are converted

  /** A state that converts was made for a column, or for a token that converting leaves alone. */
  predicate Grounded(s: State) {
    s.ColumnState? ==> MatchesColumn(ToUpper(s.tok.literal)) || |s.tok.literal| <= 2
  }

  lemma {:induction false} ShortStays(s: string)
    requires |s| <= 2
    ensures Requote(s) == s
  {
  }

  /** A token that is not written as it stands is a column, converted. */
  predicate Justified(e: Emission) {
    e.text == e.tok.literal
    || (HasState(e.tok.kind) && MatchesColumn(ToUpper(e.tok.literal)) && e.text == Requote(e.tok.literal))
  }

  predicate AllJustified(out: seq<Emission>) {
    forall i :: 0 <= i < |out| ==> Justified(out[i])
  }

  /** Parentheses are written as "(" and ")" whatever they hold. */
  predicate PlainParentheses(ts: seq<Token>) {
    forall i :: 0 <= i < |ts| ==>
      (ts[i].kind == LPARENT ==> ts[i].literal == "(") && (ts[i].kind == RPARENT ==> ts[i].literal == ")")
  }

  lemma {:induction false} NextGrounded(s: State, t: Token, allies: seq<string>)
    ensures Grounded(s.Next(t, allies))
  {
    var u := ToUpper(t.literal);
    assert u == "AS" ==> |t.literal| == 2;
    assert u == "," ==> |t.literal| == 1;
  }

  lemma {:induction false} WriteJustified(f: Frame, read: bool, cur: Token)
    requires Grounded(f.state) && (read ==> f.state.tok == cur && (HasState(cur.kind) || !f.state.ColumnState?))
    requires PlainParentheses([cur])
    ensures Justified(Emission(cur, TokenText(f, read, cur)))
  {
    assert [cur][0] == cur;
    if read && f.state.ColumnState? && |cur.literal| <= 2 {
      ShortStays(cur.literal);
    }
  }

  lemma {:induction false} JoinJustified(a: seq<Emission>, b: seq<Emission>)
    requires AllJustified(a) && AllJustified(b)
    ensures AllJustified(a + b)
  {
  }

  lemma {:induction false} HeadJustified(f: Frame, read: bool, cur: Token, ts: seq<Token>)
    requires PlainParentheses(ts) && (cur.kind == EOS || PlainParentheses([cur]))
    requires Grounded(f.state) && (read ==> f.state.tok == cur && (HasState(cur.kind) || !f.state.ColumnState?))
    ensures AllJustified(AtHead(f, read, cur, ts).out) && PlainParentheses(AtHead(f, read, cur, ts).rest)
    decreases |ts|, 1
  {
    if cur.kind != EOS && 0 <= f.level {
      WriteJustified(f, read, cur);
      if 0 <= LevelAfter(f, read, cur) {
        var f1 := f.(level := LevelAfter(f, read, cur));
        AfterJustified(f1, ts);
        JoinJustified([Emission(cur, TokenText(f, read, cur))], After(f1, ts).out);
      }
    }
  }

  lemma {:induction false} AfterJustified(f: Frame, ts: seq<Token>)
    requires PlainParentheses(ts) && Grounded(f.state)
    ensures AllJustified(After(f, ts).out) && PlainParentheses(After(f, ts).rest)
    decreases |ts|, 0
  {
    if ts == [] {
    } else if IsSelect(ts[0]) {
      ConvertedAreColumns(ts);
      var sub := Machine(ts);
      var f1 := f.(level := f.level - 1);
      HeadJustified(f1, false, HeadOf(sub.rest), TailOf(sub.rest));
      JoinJustified(sub.out, AtHead(f1, false, HeadOf(sub.rest), TailOf(sub.rest)).out);
    } else if HasState(ts[0].kind) {
      var state := f.state.Next(ts[0], f.allies);
      NextGrounded(f.state, ts[0], f.allies);
      HeadJustified(Frame(state, state.Allies(f.allies), f.level), true, ts[0], ts[1..]);
    } else {
      HeadJustified(f, false, ts[0], ts[1..]);
    }
  }

  /** In a whole run, subqueries included, every token written otherwise than it stands is one that has
      a state, matches the column pattern, and is written converted. */
  lemma {:induction false} ConvertedAreColumns(ts: seq<Token>)
    requires ts != [] && PlainParentheses(ts)
    ensures AllJustified(Machine(ts).out) && PlainParentheses(Machine(ts).rest)
    decreases |ts| - 1, 2
  {
    HeadJustified(Frame(SelectState(ts[0]), [], 0), true, ts[0], ts[1..]);
  }

  // ---- Single steps

  /** Blanks between tokens. */
  predicate Gap(ts: seq<Token>) {
    forall i :: 0 <= i < |ts| ==> ts[i].kind == SPACE && !IsSelect(ts[i])
  }

  function AsTheyStand(ts: seq<Token>): seq<Emission> {
    if ts == [] then [] else [Emission(ts[0], ts[0].literal)] + AsTheyStand(ts[1..])
  }

  function Before(out: seq<Emission>, w: Written): Written {
    Written(out + w.out, w.rest)
  }

  lemma {:induction false} BeforeTwice(a: seq<Emission>, b: seq<Emission>, w: Written)
    ensures Before(a, Before(b, w)) == Before(a + b, w)
  {
  }

  /** Blanks are copied, and nothing else happens. */
  lemma {:induction false} GapCopied(f: Frame, gap: seq<Token>, ts: seq<Token>)
    requires Gap(gap) && 0 <= f.level
    ensures After(f, gap + ts) == Before(AsTheyStand(gap), After(f, ts))
    decreases |gap|
  {
    if gap == [] {
      assert gap + ts == ts;
      assert AsTheyStand(gap) + After(f, ts).out == After(f, ts).out;
    } else {
      assert (gap + ts)[1..] == gap[1..] + ts;
      GapCopied(f, gap[1..], ts);
      BeforeTwice([Emission(gap[0], gap[0].literal)], AsTheyStand(gap[1..]), After(f, ts));
    }
  }

  /** A token with a state is written as its new state converts it. */
  lemma {:induction false} StateStep(f: Frame, t: Token, ts: seq<Token>)
    requires HasState(t.kind) && !IsSelect(t) && 0 <= f.level
    ensures var s := f.state.Next(t, f.allies);
            After(f, [t] + ts) == Before([Emission(t, s.Convert())], After(Frame(s, s.Allies(f.allies), f.level), ts))
  {
    assert ([t] + ts)[1..] == ts;
  }

  // ---- The columns of a select list

  /** Columns with commas between them, and the blanks in front of each token. */
  datatype Columns =
    | LastColumn(gap: seq<Token>, column: Token)
    | MoreColumns(gap: seq<Token>, column: Token, commaGap: seq<Token>, comma: Token, rest: Columns)

  predicate IsColumn(t: Token) {
    var u := ToUpper(t.literal);
    HasState(t.kind) && !IsSelect(t) && MatchesColumn(u) && !InTableKeywords(u) && u != "AS" && u != ","
  }

  predicate WellFormedColumns(cs: Columns) {
    && Gap(cs.gap) && IsColumn(cs.column)
    && (cs.MoreColumns? ==>
          Gap(cs.commaGap) && cs.comma == Token(COMMA, ",") && WellFormedColumns(cs.rest))
  }

  function SpellColumns(cs: Columns, tail: seq<Token>): seq<Token> {
    match cs
    case LastColumn(gap, column) => gap + ([column] + tail)
    case MoreColumns(gap, column, commaGap, comma, rest) =>
      gap + ([column] + (commaGap + ([comma] + SpellColumns(rest, tail))))
  }

  /** Every column converted, everything else as it stands. */
  function Converted(cs: Columns): seq<Emission> {
    var first := AsTheyStand(cs.gap) + [Emission(cs.column, Requote(cs.column.literal))];
    match cs
    case LastColumn(_, _) => first
    case MoreColumns(_, _, commaGap, comma, rest) =>
      first + (AsTheyStand(commaGap) + ([Emission(comma, ",")] + Converted(rest)))
  }

  function LastOf(cs: Columns): Token {
    if cs.LastColumn? then cs.column else LastOf(cs.rest)
  }

  /** A state in which a column is expected. */
  predicate Expecting(s: State) {
    s.SelectState? || (s.ColumnState? && s.nextIsColumnOrFunction)
  }

  lemma {:induction false} ColumnStep(f: Frame, gap: seq<Token>, column: Token, ts: seq<Token>)
    requires Expecting(f.state) && f.allies == [] && 0 <= f.level && Gap(gap) && IsColumn(column)
    ensures After(f, gap + ([column] + ts))
         == Before(AsTheyStand(gap) + [Emission(column, Requote(column.literal))],
                   After(Frame(State.ColumnState(column, false), [], f.level), ts))
  {
    GapCopied(f, gap, [column] + ts);
    StateStep(f, column, ts);
    var w := After(Frame(State.ColumnState(column, false), [], f.level), ts);
    BeforeTwice(AsTheyStand(gap), [Emission(column, Requote(column.literal))], w);
  }

  lemma {:induction false} CommaStep(f: Frame, gap: seq<Token>, comma: Token, ts: seq<Token>)
    requires f.state.ColumnState? && f.allies == [] && 0 <= f.level && Gap(gap) && comma == Token(COMMA, ",")
    ensures After(f, gap + ([comma] + ts))
         == Before(AsTheyStand(gap) + [Emission(comma, ",")],
                   After(Frame(State.ColumnState(comma, true), [], f.level), ts))
  {
    GapCopied(f, gap, [comma] + ts);
    assert ToUpper(",") == ",";
    StateStep(f, comma, ts);
    ShortStays(",");
    var w := After(Frame(State.ColumnState(comma, true), [], f.level), ts);
    BeforeTwice(AsTheyStand(gap), [Emission(comma, ",")], w);
  }

  /** All columns of a list are converted, wherever the machine expects a column. */
  lemma {:induction false} ListConverted(f: Frame, cs: Columns, tail: seq<Token>)
    requires Expecting(f.state) && f.allies == [] && 0 <= f.level && WellFormedColumns(cs)
    ensures After(f, SpellColumns(cs, tail))
         == Before(Converted(cs), After(Frame(State.ColumnState(LastOf(cs), false), [], f.level), tail))
    decreases cs
  {
    match cs
    case LastColumn(gap, column) =>
      ColumnStep(f, gap, column, tail);
    case MoreColumns(gap, column, commaGap, comma, rest) =>
      var behind := SpellColumns(rest, tail);
      var f1 := Frame(State.ColumnState(column, false), [], f.level);
      var f2 := Frame(State.ColumnState(comma, true), [], f.level);
      ColumnStep(f, gap, column, commaGap + ([comma] + behind));
      CommaStep(f1, commaGap, comma, behind);
      ListConverted(f2, rest, tail);
      ListJoined(AsTheyStand(gap) + [Emission(column, Requote(column.literal))], AsTheyStand(commaGap),
                 [Emission(comma, ",")], Converted(rest),
                 After(Frame(State.ColumnState(LastOf(rest), false), [], f.level), tail));
  }

  lemma {:induction false} ListJoined(
      a: seq<Emission>, b: seq<Emission>, c: seq<Emission>, d: seq<Emission>, w: Written)
    ensures Before(a, Before(b + c, Before(d, w))) == Before(a + (b + (c + d)), w)
  {
    BeforeTwice(b + c, d, w);
    BeforeTwice(a, b + c + d, w);
    assert b + c + d == b + (c + d);
  }

  /** `SELECT c1, c2, ...`: each column of the list is re-quoted, the rest of it is kept. */
  lemma {:induction false} SelectListConverted(select: Token, cs: Columns, tail: seq<Token>)
    requires IsSelect(select) && select.kind != EOS && WellFormedColumns(cs)
    ensures var w := After(Frame(State.ColumnState(LastOf(cs), false), [], 0), tail);
            Machine([select] + SpellColumns(cs, tail)) == Before([Emission(select, select.literal)] + Converted(cs), w)
  {
    var f := Frame(SelectState(select), [], 0);
    assert ([select] + SpellColumns(cs, tail))[1..] == SpellColumns(cs, tail);
    ListConverted(f, cs, tail);
    BeforeTwice([Emission(select, select.literal)], Converted(cs),
                After(Frame(State.ColumnState(LastOf(cs), false), [], 0), tail));
  }

  // ---- Aliases

  /** A name that follows a column without a comma is an alias: it is kept as it stands, and noted. */
  lemma {:induction false} AliasKept(f: Frame, gap: seq<Token>, name: Token, ts: seq<Token>)
    requires f.state.ColumnState? && !f.state.nextIsColumnOrFunction && 0 <= f.level
    requires Gap(gap) && IsColumn(name)
    ensures After(f, gap + ([name] + ts))
         == Before(AsTheyStand(gap) + [Emission(name, name.literal)],
                   After(Frame(AlliesState(name), f.allies + [name.literal], f.level), ts))
  {
    GapCopied(f, gap, [name] + ts);
    assert ToUpper(",") == ",";
    StateStep(f, name, ts);
    BeforeTwice(AsTheyStand(gap), [Emission(name, name.literal)],
                After(Frame(AlliesState(name), f.allies + [name.literal], f.level), ts));
  }

  /** With AS between the column and the name it is the same, even directly behind a comma. */
  lemma {:induction false} AsAliasKept(
      f: Frame, gap: seq<Token>, asWord: Token, gap2: seq<Token>, name: Token, ts: seq<Token>,
      behind: seq<Token>)
    requires f.state.ColumnState? && 0 <= f.level && Gap(gap) && Gap(gap2) && IsColumn(name)
    requires (asWord.kind == IDENT || asWord.kind.Scalar?) && ToUpper(asWord.literal) == "AS"
    requires behind == gap2 + ([name] + ts)
    ensures After(f, gap + ([asWord] + behind))
         == Before((AsTheyStand(gap) + [Emission(asWord, asWord.literal)])
                     + (AsTheyStand(gap2) + [Emission(name, name.literal)]),
                   After(Frame(AlliesState(name), f.allies + [name.literal], f.level), ts))
  {
    var f1 := Frame(State.ColumnState(asWord, false), f.allies, f.level);
    GapCopied(f, gap, [asWord] + behind);
    ShortStays(asWord.literal);
    StateStep(f, asWord, behind);
    AliasKept(f1, gap2, name, ts);
    var w := After(Frame(AlliesState(name), f.allies + [name.literal], f.level), ts);
    var last := AsTheyStand(gap2) + [Emission(name, name.literal)];
    BeforeTwice([Emission(asWord, asWord.literal)], last, w);
    BeforeTwice(AsTheyStand(gap), [Emission(asWord, asWord.literal)] + last, w);
    assert AsTheyStand(gap) + ([Emission(asWord, asWord.literal)] + last)
        == (AsTheyStand(gap) + [Emission(asWord, asWord.literal)]) + last;
  }

  /** In a clause behind the select list, a name is kept exactly if its upper-case form was noted as an
      alias or it is no column; an alias noted in lower case is therefore converted like a column. */
  lemma {:induction false} NameInClause(f: Frame, name: Token, ts: seq<Token>)
    requires f.state.FunctionOrClauseState? && 0 <= f.level && HasState(name.kind) && !IsSelect(name)
    requires !InTableKeywords(ToUpper(name.literal)) && ToUpper(name.literal) != ","
    ensures var u := ToUpper(name.literal);
            var kept := u in f.allies || !MatchesColumn(u);
            var s := f.state.Next(name, f.allies);
            After(f, [name] + ts) == Before([Emission(name, if kept then name.literal else Requote(name.literal))],
                                            After(Frame(s, s.Allies(f.allies), f.level), ts))
  {
    StateStep(f, name, ts);
  }

  // ---- Table names

  /** Behind FROM or JOIN the next name is kept as it stands, be it a column's name or not.  A FROM that
      follows SELECT at once, or that is an alias, is not taken for one. */
  lemma {:induction false} TableNameKept(f: Frame, from: Token, gap: seq<Token>, name: Token, ts: seq<Token>)
    requires 0 <= f.level && !f.state.SelectState? && ToUpper(from.literal) !in f.allies
    requires HasState(from.kind) && InTableKeywords(ToUpper(from.literal))
    requires Gap(gap) && HasState(name.kind) && !IsSelect(name)
    ensures After(f, [from] + (gap + ([name] + ts)))
         == Before([Emission(from, from.literal)] + (AsTheyStand(gap) + [Emission(name, name.literal)]),
                   After(Frame(TableState(name), f.allies, f.level), ts))
  {
    StateStep(f, from, gap + ([name] + ts));
    NameOfTable(Frame(TableState(from), f.allies, f.level), gap, name, ts);
    BeforeTwice([Emission(from, from.literal)], AsTheyStand(gap) + [Emission(name, name.literal)],
                After(Frame(TableState(name), f.allies, f.level), ts));
  }

  lemma {:induction false} NameOfTable(f: Frame, gap: seq<Token>, name: Token, ts: seq<Token>)
    requires 0 <= f.level && f.state.TableState? && InTableKeywords(ToUpper(f.state.tok.literal))
    requires Gap(gap) && HasState(name.kind) && !IsSelect(name)
    ensures After(f, gap + ([name] + ts))
         == Before(AsTheyStand(gap) + [Emission(name, name.literal)],
                   After(Frame(TableState(name), f.allies, f.level), ts))
  {
    GapCopied(f, gap, [name] + ts);
    StateStep(f, name, ts);
    BeforeTwice(AsTheyStand(gap), [Emission(name, name.literal)],
                After(Frame(TableState(name), f.allies, f.level), ts));
  }
}
