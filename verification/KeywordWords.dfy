/** The words read as keywords, and what functions and units are called on the server. */
module KeywordWords {
  import opened FunctionDeclare
  import opened Tokens

  /** The words that are no function's name. */
  lemma {:induction false} KeywordsRead()
    ensures LookupIdent("FN") == FN
    ensures LookupIdent("D") == D
    ensures LookupIdent("T") == T
    ensures LookupIdent("TS") == TS
    ensures LookupIdent("CONVERT") == CONVERT
    ensures LookupIdent("LOCATE") == LOCATE
    ensures LookupIdent("LTRIM") == LTRIM
    ensures LookupIdent("CURRENT_TIMESTAMP") == CURRENT_TIMESTAMP
  {
  }

  /** The units; QUARTER is read as a function, see below. */
  lemma {:induction false} UnitsRead()
    ensures LookupIdent("SQL_TSI_SECOND") == SQL_TSI_SECOND
    ensures LookupIdent("SQL_TSI_MINUTE") == SQL_TSI_MINUTE
    ensures LookupIdent("SQL_TSI_HOUR") == SQL_TSI_HOUR
    ensures LookupIdent("SQL_TSI_DAY") == SQL_TSI_DAY
  {
  }

  lemma {:induction false} FurtherUnitsRead()
    ensures LookupIdent("DAY") == SQL_TSI_DAY
    ensures LookupIdent("SQL_TSI_WEEK") == SQL_TSI_WEEK
    ensures LookupIdent("SQL_TSI_MONTH") == SQL_TSI_MONTH
    ensures LookupIdent("SQL_TSI_YEAR") == SQL_TSI_YEAR
  {
  }

  // ---- Functions

  /** `word` is the function `f`, which is called `name` on the server. */
  predicate Renamed(word: string, f: ScalarFunction, name: string) {
    LookupIdent(word) == Scalar(f) && ServerName(f) == name
  }

  lemma {:induction false} NumericWords1()
    ensures Renamed("ABS", ABS, "abs")
    ensures Renamed("ACOS", ACOS, "acos")
    ensures Renamed("ASIN", ASIN, "asin")
    ensures Renamed("ATAN", ATAN, "atan")
    ensures Renamed("CEILING", CEILING, "ceil")
    ensures Renamed("COS", COS, "cos")
    ensures Renamed("EXP", EXP, "exp")
  {
  }

  lemma {:induction false} NumericWords2()
    ensures Renamed("FLOOR", FLOOR, "floor")
    ensures Renamed("LOG", LOG, "log")
    ensures Renamed("LOG10", LOG10, "log10")
    ensures Renamed("MOD", MOD, "modulo")
    ensures Renamed("PI", PI, "pi")
    ensures Renamed("POWER", POWER, "power")
  {
  }

  lemma {:induction false} NumericWords3()
    ensures Renamed("RAND", RAND, "rand")
    ensures Renamed("ROUND", ROUND, "round")
    ensures Renamed("SIN", SIN, "sin")
    ensures Renamed("SQRT", SQRT, "sqrt")
    ensures Renamed("TAN", TAN, "tan")
    ensures Renamed("TRUNCATE", TRUNCATE, "trunc")
  {
  }

  lemma {:induction false} TextWords1()
    ensures Renamed("CHAR_LENGTH", CHAR_LENGTH, "lengthUTF8")
    ensures Renamed("CHARACTER_LENGTH", CHARACTER_LENGTH, "lengthUTF8")
    ensures Renamed("CONCAT", CONCAT, "concat")
    ensures Renamed("LCASE", LCASE, "lowerUTF8")
  {
  }

  lemma {:induction false} TextWords2()
    ensures Renamed("LOWER", LOWER, "lowerUTF8")
    ensures Renamed("LENGTH", LENGTH, "lengthUTF8")
    ensures Renamed("OCTET_LENGTH", OCTET_LENGTH, "length")
  {
  }

  lemma {:induction false} TextWords3()
    ensures Renamed("REPLACE", REPLACE, "replaceAll")
    ensures Renamed("SUBSTRING", SUBSTRING, "substringUTF8")
    ensures Renamed("UCASE", UCASE, "upperUTF8")
  {
  }

  lemma {:induction false} TextWords4()
    ensures Renamed("UPPER", UPPER, "upperUTF8")
    ensures Renamed("IFNULL", IFNULL, "ifNull")
  {
  }

  lemma {:induction false} DateWords1()
    ensures Renamed("CURDATE", CURDATE, "today")
    ensures Renamed("CURRENT_DATE", CURRENT_DATE, "today")
  {
  }

  lemma {:induction false} DateWords2()
    ensures Renamed("DAYOFMONTH", DAYOFMONTH, "DayOfMonth")
    ensures Renamed("DAYOFWEEK", DAYOFWEEK, "DayOfWeek")
  {
  }

  lemma {:induction false} DateWords3()
    ensures Renamed("DAYOFYEAR", DAYOFYEAR, " DayOfYear")
    ensures Renamed("EXTRACT", EXTRACT, "EXTRACT")
  {
  }

  lemma {:induction false} DateWords4()
    ensures Renamed("TIMESTAMPADD", TIMESTAMPADD, "dateAdd")
    ensures Renamed("HOUR", HOUR, "Hour")
  {
  }

  lemma {:induction false} DateWords5()
    ensures Renamed("MINUTE", MINUTE, "Minute")
    ensures Renamed("MONTH", MONTH, "Month")
  {
  }

  lemma {:induction false} DateWords6()
    ensures Renamed("NOW", NOW, "now")
    ensures Renamed("SECOND", SECOND, "Second")
  {
  }

  lemma {:induction false} DateWords7()
    ensures Renamed("TIMESTAMPDIFF", TIMESTAMPDIFF, "dateDiff")
    ensures Renamed("WEEK", WEEK, "WeekOfYear")
  {
  }

  lemma {:induction false} DateWords8()
    ensures Renamed("SQL_TSI_QUARTER", SQL_TSI_QUARTER, "Quarter")
    ensures Renamed("YEAR", YEAR, "Year")
  {
  }

  lemma {:induction false} DateWords9()
    ensures Renamed("QUARTER", SQL_TSI_QUARTER, "Quarter")
  {
  }
}
