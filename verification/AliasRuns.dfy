/** What becomes of an alias from the select list to the clauses behind it. */
module AliasRuns {
  import opened Chars
  import opened Tokens
  import opened ColumnWalk
  import opened ColumnConversion

  // ---- Stretches of tokens that one machine reads

  /** The machine's variables behind a token that is no SELECT. */
  function Behind(f: Frame, t: Token): Frame {
    if HasState(t.kind) then
      var s := f.state.Next(t, f.allies);
      Frame(s, s.Allies(f.allies), f.level)
    else f.(level := LevelAfter(f, false, t))
  }

  /** What it writes for the token. */
  function TextOf(f: Frame, t: Token): string {
    if HasState(t.kind) then f.state.Next(t, f.allies).Convert() else TokenText(f, false, t)
  }

  /** One machine reads all of `ts`: no SELECT is among them and no parenthesis closed that is not open. */
  predicate OwnTokens(f: Frame, ts: seq<Token>)
    decreases |ts|
  {
    0 <= f.level
    && (ts != [] ==> !IsSelect(ts[0]) && ts[0].kind != EOS && OwnTokens(Behind(f, ts[0]), ts[1..]))
  }

  function BehindAll(f: Frame, ts: seq<Token>): Frame
    decreases |ts|
  {
    if ts == [] then f else BehindAll(Behind(f, ts[0]), ts[1..])
  }

  function WrittenFor(f: Frame, ts: seq<Token>): seq<Emission>
    decreases |ts|
  {
    if ts == [] then [] else [Emission(ts[0], TextOf(f, ts[0]))] + WrittenFor(Behind(f, ts[0]), ts[1..])
  }

  lemma {:induction false} OneToken(f: Frame, all: seq<Token>)
    requires 0 <= f.level && all != [] && !IsSelect(all[0]) && all[0].kind != EOS && 0 <= Behind(f, all[0]).level
    ensures After(f, all) == Before([Emission(all[0], TextOf(f, all[0]))], After(Behind(f, all[0]), all[1..]))
  {
  }

  lemma {:induction false} FirstOwn(f: Frame, ts: seq<Token>)
    requires OwnTokens(f, ts) && ts != []
    ensures 0 <= f.level && !IsSelect(ts[0]) && ts[0].kind != EOS
    ensures 0 <= Behind(f, ts[0]).level && OwnTokens(Behind(f, ts[0]), ts[1..])
  {
  }

  lemma {:induction false} StretchOn(
      f: Frame, ts: seq<Token>, all: seq<Token>, more: Written, out: seq<Emission>, w: Written)
    requires OwnTokens(f, ts) && ts != [] && all != [] && all[0] == ts[0]
    requires more == After(Behind(f, ts[0]), all[1..]) && more == Before(out, w)
    ensures After(f, all) == Before([Emission(ts[0], TextOf(f, ts[0]))] + out, w)
  {
    FirstOwn(f, ts);
    OneToken(f, all);
    BeforeTwice([Emission(ts[0], TextOf(f, ts[0]))], out, w);
  }

  lemma {:induction false} TailOfStretch(ts: seq<Token>, rest: seq<Token>, all: seq<Token>)
    requires all == ts + rest && ts != []
    ensures all != [] && all[0] == ts[0] && all[1..] == ts[1..] + rest
  {
  }

  /** The machine reads the stretch `ts` in front of `rest` and goes on behind it. */
  lemma {:induction false} Stretch(f: Frame, ts: seq<Token>, rest: seq<Token>, all: seq<Token>, w: Written)
    requires OwnTokens(f, ts) && all == ts + rest && w == After(BehindAll(f, ts), rest)
    ensures After(f, all) == Before(WrittenFor(f, ts), w)
    decreases |ts|
  {
    if ts == [] {
      assert all == rest;
      NothingBefore(w);
    } else {
      var g := Behind(f, ts[0]);
      FirstOwn(f, ts);
      TailOfStretch(ts, rest, all);
      Stretch(g, ts[1..], rest, all[1..], w);
      StretchOn(f, ts, all, After(g, all[1..]), WrittenFor(g, ts[1..]), w);
    }
  }

  lemma {:induction false} NothingBefore(w: Written)
    ensures Before([], w) == w
  {
  }

  lemma {:induction false} StaysOpen(f: Frame, ts: seq<Token>)
    requires OwnTokens(f, ts)
    ensures 0 <= BehindAll(f, ts).level
    decreases |ts|
  {
    if ts != [] {
      StaysOpen(Behind(f, ts[0]), ts[1..]);
    }
  }

  /** Aliases are never forgotten. */
  lemma {:induction false} AlliesGrow(f: Frame, ts: seq<Token>)
    ensures f.allies <= BehindAll(f, ts).allies
    decreases |ts|
  {
    if ts != [] {
      AlliesGrow(Behind(f, ts[0]), ts[1..]);
    }
  }

  // ---- The alias

  /** How a clause writes the alias `literal`, with `allies` noted up to there. */
  function AliasText(literal: string, allies: seq<string>): string {
    if ToUpper(literal) in allies then literal else Requote(literal)
  }

  /** An alias noted in the select list, tokens of any kind up to a clause, and the alias again. */
  lemma {:induction false} AliasInClause(
      f: Frame, gap: seq<Token>, alias: Token, mid: seq<Token>, name: Token, rest: seq<Token>, noted: Frame,
      clause: Frame)
    requires f.state.ColumnState? && !f.state.nextIsColumnOrFunction && 0 <= f.level && Gap(gap) && IsColumn(alias)
    requires noted == Frame(AlliesState(alias), f.allies + [alias.literal], f.level) && OwnTokens(noted, mid)
    requires clause == BehindAll(noted, mid) && clause.state.FunctionOrClauseState?
    requires HasState(name.kind) && name.literal == alias.literal
    ensures alias.literal in clause.allies
    ensures After(f, gap + ([alias] + (mid + ([name] + rest))))
         == Before((AsTheyStand(gap) + [Emission(alias, alias.literal)])
                     + (WrittenFor(noted, mid) + [Emission(name, AliasText(alias.literal, clause.allies))]),
                   After(Behind(clause, name), rest))
  {
    AliasKept(f, gap, alias, mid + ([name] + rest));
    Stretch(noted, mid, [name] + rest, mid + ([name] + rest), After(clause, [name] + rest));
    StaysOpen(noted, mid);
    AlliesGrow(noted, mid);
    assert noted.allies[|f.allies|] == alias.literal;
    assert clause.allies[|f.allies|] == alias.literal;
    NameInClause(clause, name, rest);
    var w := After(Behind(clause, name), rest);
    var last := [Emission(name, AliasText(alias.literal, clause.allies))];
    BeforeTwice(WrittenFor(noted, mid), last, w);
    BeforeTwice(AsTheyStand(gap) + [Emission(alias, alias.literal)], WrittenFor(noted, mid) + last, w);
  }

  /** `SELECT c1, c2 alias ... clause alias`, in a whole run: the alias is kept where it is introduced, and
      behind the select list it is kept exactly if it is in upper case, or converting it changes nothing,
      or its upper-case form happens to be another alias. */
  lemma {:induction false} AliasInRun(
      select: Token, cs: Columns, gap: seq<Token>, alias: Token, mid: seq<Token>, name: Token, rest: seq<Token>,
      noted: Frame, clause: Frame)
    requires IsSelect(select) && select.kind != EOS && WellFormedColumns(cs) && Gap(gap) && IsColumn(alias)
    requires noted == Frame(AlliesState(alias), [alias.literal], 0) && OwnTokens(noted, mid)
    requires clause == BehindAll(noted, mid) && clause.state.FunctionOrClauseState?
    requires HasState(name.kind) && name.literal == alias.literal
    ensures alias.literal in clause.allies
    ensures Machine([select] + SpellColumns(cs, gap + ([alias] + (mid + ([name] + rest)))))
         == Before(([Emission(select, select.literal)] + Converted(cs))
                     + ((AsTheyStand(gap) + [Emission(alias, alias.literal)])
                        + (WrittenFor(noted, mid) + [Emission(name, AliasText(alias.literal, clause.allies))])),
                   After(Behind(clause, name), rest))
    ensures AliasText(alias.literal, clause.allies) == alias.literal <==>
              || ToUpper(alias.literal) == alias.literal || Requote(alias.literal) == alias.literal
              || ToUpper(alias.literal) in clause.allies
  {
    var f := Frame(State.ColumnState(LastOf(cs), false), [], 0);
    SelectListConverted(select, cs, gap + ([alias] + (mid + ([name] + rest))));
    assert f.allies + [alias.literal] == [alias.literal];
    AliasInClause(f, gap, alias, mid, name, rest, noted, clause);
    BeforeTwice([Emission(select, select.literal)] + Converted(cs),
                (AsTheyStand(gap) + [Emission(alias, alias.literal)])
                  + (WrittenFor(noted, mid) + [Emission(name, AliasText(alias.literal, clause.allies))]),
                After(Behind(clause, name), rest));
  }
}
