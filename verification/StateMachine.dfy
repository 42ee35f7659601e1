/** The walk as the driver performs it: an object per SELECT, all of them on one lexer. */
module StateMachine {
  import opened Chars
  import opened Tokens
  import opened Lexer
  import opened ColumnWalk

  /** What a lexer that emits blanks and has at most one token queued still has to say. */
  function Pending(s: LexState): seq<Token> {
    if s.queue == [] then s.rest
    else if s.queue[0].kind == EOS then []
    else s.queue + s.rest
  }

  predicate NoEnd(ts: seq<Token>) { forall t <- ts :: t.kind != EOS }

  predicate Reading(s: LexState) {
    && s.emit && |s.queue| <= 1 && NoEnd(s.rest)
    && (s.queue != [] && s.queue[0].kind == EOS ==> s.queue[0] == END_OF_TEXT && s.rest == [])
  }

  lemma {:induction false} ReadingStep(s: LexState)
    requires Reading(s)
    ensures s.Head() == HeadOf(Pending(s))
    ensures Reading(s.Peeked()) && Pending(s.Peeked()) == Pending(s)
    ensures Reading(s.Popped()) && Pending(s.Popped()) == TailOf(Pending(s))
    ensures s.Head().kind != EOS <==> Pending(s) != []
  {
    if s.queue == [] && s.rest != [] {
      assert [s.rest[0]] + s.rest[1..] == s.rest;
      assert NoEnd(s.rest[1..]);
    } else if s.queue != [] {
      assert s.queue + s.rest == [s.queue[0]] + s.rest;
    }
  }

  lemma {:induction false} TokensFromNoEnd(text: string, p: nat)
    requires Lexable(text, p)
    ensures NoEnd(TokensFrom(text, p))
    decreases |text| - p
  {
    var r := Next(text, p, true);
    if r.token.kind != EOS {
      TokensFromNoEnd(text, r.end);
    }
  }

  lemma {:induction false} RenderAppend(a: seq<Emission>, b: seq<Emission>)
    ensures Render(a + b) == Render(a) + Render(b)
  {
    if a == [] {
      assert a + b == b;
    } else {
      assert (a + b)[1..] == a[1..] + b;
      RenderAppend(a[1..], b);
    }
  }

  /** Writing the current token. */
  lemma {:induction false} WriteStep(f: Frame, read: bool, cur: Token, ts: seq<Token>)
    requires cur.kind != EOS && 0 <= f.level
    ensures var level := LevelAfter(f, read, cur);
            var w, w1 := AtHead(f, read, cur, ts), After(f.(level := level), ts);
            Render(w.out) == TokenText(f, read, cur) + (if level < 0 then "" else Render(w1.out))
            && w.rest == if level < 0 then ts else w1.rest
  {
    var level := LevelAfter(f, read, cur);
    var first := Emission(cur, TokenText(f, read, cur));
    if 0 <= level {
      RenderAppend([first], After(f.(level := level), ts).out);
    }
    assert Render([first]) == first.text + Render([]);
  }

  /** Handing over to the machine of a SELECT inside. */
  lemma {:induction false} SelectStep(f: Frame, ts: seq<Token>)
    requires ts != [] && IsSelect(ts[0])
    ensures var sub := Machine(ts);
            var w := AtHead(f.(level := f.level - 1), false, HeadOf(sub.rest), TailOf(sub.rest));
            Render(After(f, ts).out) == Render(sub.out) + Render(w.out) && After(f, ts).rest == w.rest
  {
    var sub := Machine(ts);
    RenderAppend(sub.out, AtHead(f.(level := f.level - 1), false, HeadOf(sub.rest), TailOf(sub.rest)).out);
  }

  class StateMachine {
    const queryView: string
    const lex: Lexer
    var level: int
    var currentState: State
    var alliesList: seq<string>

    constructor (queryView: string, lex: Lexer)
      ensures this.queryView == queryView && this.lex == lex && level == 0 && alliesList == []
    {
      this.queryView := queryView;
      this.lex := lex;
      level := 0;
      currentState := SelectState(END_OF_TEXT);
      alliesList := [];
    }

    ghost function Vars(): Frame
      reads this
    {
      Frame(currentState, alliesList, level)
    }

    /** Enters the state for `t`, whose constructor may note an alias. */
    method Enter(t: Token)
      modifies this`currentState, this`alliesList
      ensures currentState == old(currentState).Next(t, old(alliesList))
      ensures alliesList == currentState.Allies(old(alliesList))
    {
      currentState := currentState.Next(t, alliesList);
      alliesList := currentState.Allies(alliesList);
    }

    /** Writes the current token. */
    method Write(read: bool, current: Token) returns (text: string)
      modifies this`level
      ensures text == old(TokenText(Vars(), read, current))
      ensures level == old(LevelAfter(Vars(), read, current))
    {
      if read {
        text := currentState.Convert();
      } else if current.kind == LPARENT {
        level := level + 1;
        text := "(";
      } else if current.kind == RPARENT {
        level := level - 1;
        text := ")";
      } else {
        text := current.literal;
      }
    }

    method Run() returns (modifiedQuery: string)
      requires lex.Valid() && Reading(lex.State())
      requires level == 0 && alliesList == []
      modifies this, lex
      ensures lex.Valid() && Reading(lex.State()) && lex.State().Size() <= old(lex.State().Size())
      ensures var ts := Pending(old(lex.State()));
              if ts == [] || !IsSelect(ts[0]) then modifiedQuery == queryView
              else
                && modifiedQuery == Render(Machine(ts).out)
                && Pending(lex.State()) == Machine(ts).rest
                && lex.State().Size() < old(lex.State().Size())
      decreases lex.State().Size(), 0
    {
      ghost var ts := Pending(lex.State());
      ghost var size := lex.State().Size();
      ReadingStep(lex.State());
      var current := lex.Consume();
      if !IsSelect(current) {
        return queryView;
      }
      currentState := SelectState(current);
      modifiedQuery := "";
      var readFromState := true;
      ghost var all := Machine(ts);
      while current.kind != EOS && 0 <= level
        invariant lex.Valid() && Reading(lex.State()) && lex.State().Size() < size
        invariant current.kind == EOS ==> Pending(lex.State()) == []
        invariant var w := AtHead(Vars(), readFromState, current, Pending(lex.State()));
                  modifiedQuery + Render(w.out) == Render(all.out) && w.rest == all.rest
        decreases lex.State().Size(), current.kind != EOS, 0 <= level
      {
        ghost var before := modifiedQuery;
        var text;
        text, current, readFromState := Turn(readFromState, current);
        modifiedQuery := modifiedQuery + text;
        Concat3(before, text, Render(AtHead(Vars(), readFromState, current, Pending(lex.State())).out));
      }
    }

    /** One turn of the loop: writes the current token and, unless the level fell below zero, goes on
        to the next. */
    method Turn(read: bool, token: Token) returns (text: string, current: Token, readFromState: bool)
      requires lex.Valid() && Reading(lex.State()) && token.kind != EOS && 0 <= level
      modifies this, lex
      ensures lex.Valid() && Reading(lex.State()) && lex.State().Size() <= old(lex.State().Size())
      ensures current.kind == EOS ==> Pending(lex.State()) == []
      ensures 0 <= level && current.kind != EOS ==> lex.State().Size() < old(lex.State().Size())
      ensures var w0 := old(AtHead(Vars(), read, token, Pending(lex.State())));
              var w := AtHead(Vars(), readFromState, current, Pending(lex.State()));
              text + Render(w.out) == Render(w0.out) && w.rest == w0.rest
      decreases lex.State().Size(), 4
    {
      WriteStep(Vars(), read, token, Pending(lex.State()));
      text := Write(read, token);
      if level < 0 {
        return text, token, false;
      }
      var more;
      more, current, readFromState := Advance();
      Concat3(text, more, Render(AtHead(Vars(), readFromState, current, Pending(lex.State())).out));
      text := text + more;
    }

    /** Has a machine of its own write the SELECT that comes next. */
    method RunSubquery() returns (text: string)
      requires lex.Valid() && Reading(lex.State())
      requires Pending(lex.State()) != [] && IsSelect(Pending(lex.State())[0])
      modifies this`level, lex
      ensures lex.Valid() && Reading(lex.State()) && lex.State().Size() < old(lex.State().Size())
      ensures Vars() == old(Vars()).(level := old(level) - 1)
      ensures var w := Machine(Pending(old(lex.State())));
              text == Render(w.out) && Pending(lex.State()) == w.rest
      decreases lex.State().Size(), 1
    {
      var subqueryMachine := new StateMachine("", lex);
      text := subqueryMachine.Run();
      level := level - 1;
    }

    /** Lets another machine write a SELECT that comes next, or enters the state of the next token. */
    method HandOver(next: Token) returns (text: string, readFromState: bool)
      requires lex.Valid() && Reading(lex.State()) && next == HeadOf(Pending(lex.State()))
      modifies this, lex
      ensures lex.Valid() && Reading(lex.State()) && lex.State().Size() <= old(lex.State().Size())
      ensures var w0, ts := old(After(Vars(), Pending(lex.State()))), Pending(lex.State());
              var w := AtHead(Vars(), readFromState, HeadOf(ts), TailOf(ts));
              text + Render(w.out) == Render(w0.out) && w.rest == w0.rest
      decreases lex.State().Size(), 2
    {
      text := "";
      readFromState := false;
      if IsSelect(next) {
        SelectStep(Vars(), Pending(lex.State()));
        text := RunSubquery();
      } else if HasState(next.kind) {
        Enter(next);
        readFromState := true;
      }
    }

    /** Looks at the next token, hands over to it and consumes the one that comes then. */
    method Advance() returns (text: string, current: Token, readFromState: bool)
      requires lex.Valid() && Reading(lex.State())
      modifies this, lex
      ensures lex.Valid() && Reading(lex.State()) && lex.State().Size() <= old(lex.State().Size())
      ensures if current.kind == EOS then Pending(lex.State()) == []
              else lex.State().Size() < old(lex.State().Size())
      ensures var w0 := old(After(Vars(), Pending(lex.State())));
              var w := AtHead(Vars(), readFromState, current, Pending(lex.State()));
              text + Render(w.out) == Render(w0.out) && w.rest == w0.rest
      decreases lex.State().Size(), 3
    {
      ReadingStep(lex.State());
      var next := lex.LookAhead(0);
      text, readFromState := HandOver(next);
      ReadingStep(lex.State());
      current := lex.Consume();
    }
  }

  method UnquoteColumnNames(query: string) returns (modifiedQuery: string)
    requires Lexable(query, 0)
    ensures modifiedQuery == UnquoteColumns(query)
  {
    var lexer := new Lexer(query);
    lexer.SetEmitSpaces(true);
    TokensFromNoEnd(query, 0);
    var columnMachine := new StateMachine(query, lexer);
    modifiedQuery := columnMachine.Run();
  }
}
