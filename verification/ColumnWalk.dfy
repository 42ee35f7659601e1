/** The re-quoting of column names: a machine that walks over the tokens of a SELECT, keeping a state
    per token, and starts a machine of its own for every SELECT inside. */
module ColumnWalk {
  import opened Chars
  import opened Tokens
  import opened Lexer

  // ---- The column patterns

  predicate IsLineEnd(c: char) { c == '\n' || c == '\r' }

  predicate HasAt(s: string, i: nat, word: string) {
    i + |word| <= |s| && s[i..i + |word|] == word
  }

  /** From `i` on, a digit or one of the words `COLUMN_REGEX` names. */
  predicate MentionsColumn(s: string, i: nat)
    decreases |s| - i
  {
    i < |s| && (
      || IsDigit(s[i])
      || HasAt(s, i, "ENTITY") || HasAt(s, i, "TAGS") || HasAt(s, i, "METRIC") || HasAt(s, i, "TEXT")
      || HasAt(s, i, "VALUE") || HasAt(s, i, "TIME") || HasAt(s, i, "DATETIME")
      || MentionsColumn(s, i + 1))
  }

  /** `COLUMN_REGEX` matches the whole of `s`. */
  predicate MatchesColumn(s: string) {
    (forall i :: 0 <= i < |s| ==> !IsLineEnd(s[i])) && MentionsColumn(s, 0)
  }

  /** The length of the word ENTITY, TAGS or METRIC at `i`, in any case; 0 if there is none. */
  function ColumnWordAt(s: string, i: nat): (n: nat)
    ensures i + n <= |s| || n == 0
  {
    var u := ToUpper(s);
    if HasAt(u, i, "ENTITY") then 6
    else if HasAt(u, i, "TAGS") then 4
    else if HasAt(u, i, "METRIC") then 6
    else 0
  }

  /** A `"` at `i` or later on the same line. */
  predicate QuoteFollows(s: string, i: nat)
    decreases |s| - i
  {
    i < |s| && (s[i] == '"' || (!IsLineEnd(s[i]) && QuoteFollows(s, i + 1)))
  }

  /** `COLUMN_WITH_POINT_REGEX` matches at `i`: an opening quote, a column word, a dot, at least one
      more character and a closing quote. */
  predicate PointAt(s: string, i: nat) {
    && i < |s| && s[i] == '"'
    && var n := ColumnWordAt(s, i + 1);
       && 0 < n && HasAt(s, i + 1 + n, ".")
       && i + n + 2 < |s| && !IsLineEnd(s[i + n + 2]) && QuoteFollows(s, i + n + 3)
  }

  /** The leftmost such position from `i` on, or the length of `s`. */
  function PointFrom(s: string, i: nat): (r: nat)
    requires i <= |s|
    ensures i <= r <= |s| && (r < |s| ==> PointAt(s, r))
    ensures forall j :: i <= j < r ==> !PointAt(s, j)
    decreases |s| - i
  {
    if i == |s| || PointAt(s, i) then i else PointFrom(s, i + 1)
  }

  /** `ColumnState::convert`: the dot becomes `"."`. */
  function Requote(s: string): string {
    var i := PointFrom(s, 0);
    if i == |s| then s
    else
      var dot := i + 1 + ColumnWordAt(s, i + 1);
      s[..dot] + "\".\"" + s[dot + 1..]
  }

  // ---- States

  /** A state and the token it was made for. */
  datatype State =
    | SelectState(tok: Token)
    | ColumnState(tok: Token, nextIsColumnOrFunction: bool)
    | AlliesState(tok: Token)
    | FunctionOrClauseState(tok: Token)
    | TableState(tok: Token)
  {
    function Convert(): string {
      if ColumnState? then Requote(tok.literal) else tok.literal
    }

    /** The state for the next token, given the aliases met so far. */
    function Next(t: Token, allies: seq<string>): (s: State)
      ensures s.tok == t
    {
      var literal := ToUpper(t.literal);
      match this
      case SelectState(_) =>
        if MatchesColumn(literal) then State.ColumnState(t, false) else State.FunctionOrClauseState(t)
      case ColumnState(_, nextIsColumnOrFunction) =>
        if InTableKeywords(literal) then State.TableState(t)
        else if literal == "AS" then State.ColumnState(t, false)
        else if literal == "," then State.ColumnState(t, true)
        else if MatchesColumn(literal) then
          if !nextIsColumnOrFunction || literal in allies then State.AlliesState(t)
          else State.ColumnState(t, false)
        else State.FunctionOrClauseState(t)
      case AlliesState(_) =>
        if literal == "," || literal in allies then State.AlliesState(t)
        else if InTableKeywords(literal) then State.TableState(t)
        else if MatchesColumn(literal) then State.ColumnState(t, false)
        else State.FunctionOrClauseState(t)
      case FunctionOrClauseState(_) =>
        if literal == "," then State.FunctionOrClauseState(t)
        else if literal in allies then State.AlliesState(t)
        else if InTableKeywords(literal) then State.TableState(t)
        else if MatchesColumn(literal) then State.ColumnState(t, false)
        else State.FunctionOrClauseState(t)
      case TableState(tok) =>
        if literal == "AS" || MatchesColumn(literal) || InTableKeywords(ToUpper(tok.literal))
           || InTableKeywords(literal)
        then State.TableState(t)
        else State.FunctionOrClauseState(t)
    }

    /** The aliases once this state has been entered. */
    function Allies(allies: seq<string>): seq<string> {
      if AlliesState? && (tok.literal != "," || tok.literal !in allies) then allies + [tok.literal] else allies
    }
  }

  predicate InTableKeywords(literal: string) { literal == "FROM" || literal == "JOIN" }

  // ---- The walk

  predicate IsSelect(t: Token) { ToUpper(t.literal) == "SELECT" }

  /** Tokens that get a state of their own. */
  predicate HasState(kind: TokenType) { kind == IDENT || kind == COMMA || kind.Scalar? }

  /** A token written, and the text it was written as. */
  datatype Emission = Emission(tok: Token, text: string)

  /** What a machine writes and the tokens it leaves. */
  datatype Written = Written(out: seq<Emission>, rest: seq<Token>)

  /** A machine's own variables. */
  datatype Frame = Frame(state: State, allies: seq<string>, level: int)

  function HeadOf(ts: seq<Token>): Token { if ts == [] then END_OF_TEXT else ts[0] }

  function TailOf(ts: seq<Token>): seq<Token> { if ts == [] then [] else ts[1..] }

  function TokenText(f: Frame, read: bool, cur: Token): string {
    if read then f.state.Convert()
    else if cur.kind == LPARENT then "("
    else if cur.kind == RPARENT then ")"
    else cur.literal
  }

  function LevelAfter(f: Frame, read: bool, cur: Token): int {
    if !read && cur.kind == LPARENT then f.level + 1
    else if !read && cur.kind == RPARENT then f.level - 1
    else f.level
  }

  /** The loop of `run` from its head on: `cur` is the current token, `ts` follow, and `read` says that
      the state was made for `cur`. */
  function AtHead(f: Frame, read: bool, cur: Token, ts: seq<Token>): (w: Written)
    ensures |w.rest| <= |ts|
    decreases |ts|, 1
  {
    if cur.kind == EOS || f.level < 0 then Written([], ts)
    else
      var level := LevelAfter(f, read, cur);
      var first := Emission(cur, TokenText(f, read, cur));
      if level < 0 then Written([first], ts)
      else
        var w := After(f.(level := level), ts);
        Written([first] + w.out, w.rest)
  }

  /** The same from the point where `current_token` has been written. */
  function After(f: Frame, ts: seq<Token>): (w: Written)
    ensures |w.rest| <= |ts|
    decreases |ts|, 0
  {
    if ts == [] then Written([], [])
    else if IsSelect(ts[0]) then
      var sub := Machine(ts);
      var w := AtHead(f.(level := f.level - 1), false, HeadOf(sub.rest), TailOf(sub.rest));
      Written(sub.out + w.out, w.rest)
    else if HasState(ts[0].kind) then
      var state := f.state.Next(ts[0], f.allies);
      AtHead(Frame(state, state.Allies(f.allies), f.level), true, ts[0], ts[1..])
    else AtHead(f, false, ts[0], ts[1..])
  }

  /** A fresh machine on a token sequence that starts with SELECT. */
  function Machine(ts: seq<Token>): (w: Written)
    requires ts != []
    ensures |w.rest| < |ts|
    decreases |ts| - 1, 2
  {
    AtHead(Frame(SelectState(ts[0]), [], 0), true, ts[0], ts[1..])
  }

  function Render(out: seq<Emission>): string {
    if out == [] then "" else out[0].text + Render(out[1..])
  }

  /** `unquoteColumns`. */
  function UnquoteColumns(query: string): string
    requires Lexable(query, 0)
  {
    var ts := TokensFrom(query, 0);
    if ts == [] || !IsSelect(ts[0]) then query else Render(Machine(ts).out)
  }
}
