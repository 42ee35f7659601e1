/** The names of units. */
module UnitNames {
  import opened Chars
  import opened FunctionDeclare
  import opened Tokens
  import opened EscapeSequences
  import opened KeywordWords

  /** The unit of the keyword `SQL_TSI_` + `word` is called `word` in lower case. */
  predicate CalledLike(kind: TokenType, word: string) {
    LookupIdent("SQL_TSI_" + word) == kind && UnitName(kind) == ToLower(word)
  }

  lemma {:induction false} Called(kind: TokenType, word: string, keyword: string)
    requires keyword == "SQL_TSI_" + word && LookupIdent(keyword) == kind && |UnitName(kind)| == |word|
    requires forall i :: 0 <= i < |word| ==> UnitName(kind)[i] == LowerChar(word[i])
    ensures CalledLike(kind, word)
  {
    assert UnitName(kind) == ToLower(word);
  }

  lemma {:induction false} SecondToDay()
    ensures CalledLike(SQL_TSI_SECOND, "SECOND")
    ensures CalledLike(SQL_TSI_MINUTE, "MINUTE")
    ensures CalledLike(SQL_TSI_HOUR, "HOUR")
    ensures CalledLike(SQL_TSI_DAY, "DAY")
  {
    UnitsRead();
    Called(SQL_TSI_SECOND, "SECOND", "SQL_TSI_SECOND");
    Called(SQL_TSI_MINUTE, "MINUTE", "SQL_TSI_MINUTE");
    Called(SQL_TSI_HOUR, "HOUR", "SQL_TSI_HOUR");
    Called(SQL_TSI_DAY, "DAY", "SQL_TSI_DAY");
  }

  lemma {:induction false} WeekAndMonth()
    ensures CalledLike(SQL_TSI_WEEK, "WEEK")
    ensures CalledLike(SQL_TSI_MONTH, "MONTH")
  {
    FurtherUnitsRead();
    Called(SQL_TSI_WEEK, "WEEK", "SQL_TSI_WEEK");
    Called(SQL_TSI_MONTH, "MONTH", "SQL_TSI_MONTH");
  }

  lemma {:induction false} QuarterAndYear()
    ensures CalledLike(Scalar(SQL_TSI_QUARTER), "QUARTER")
    ensures CalledLike(SQL_TSI_YEAR, "YEAR")
  {
    FurtherUnitsRead();
    DateWords8();
    Called(Scalar(SQL_TSI_QUARTER), "QUARTER", "SQL_TSI_QUARTER");
    Called(SQL_TSI_YEAR, "YEAR", "SQL_TSI_YEAR");
  }

  /** There are no other units; the words SECOND, MINUTE, HOUR, WEEK, MONTH and YEAR are functions only. */
  lemma {:induction false} UnitsExactly(kind: TokenType)
    ensures IsUnit(kind) <==>
              || kind == SQL_TSI_SECOND || kind == SQL_TSI_MINUTE || kind == SQL_TSI_HOUR || kind == SQL_TSI_DAY
              || kind == SQL_TSI_WEEK || kind == SQL_TSI_MONTH || kind == Scalar(SQL_TSI_QUARTER)
              || kind == SQL_TSI_YEAR
  {
  }
}
