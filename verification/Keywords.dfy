/** Which words are keywords, from the keywords' side. */
module Keywords {
  import opened FunctionDeclare
  import opened Tokens

  /** The words read as a keyword of this kind. */
  function Spellings(kind: TokenType): set<string> {
    match kind
    case FN => {"FN"}
    case D => {"D"}
    case T => {"T"}
    case TS => {"TS"}
    case Scalar(f) => ScalarSpellings(f)
    case CONVERT => {"CONVERT"}
    case LOCATE => {"LOCATE"}
    case LTRIM => {"LTRIM"}
    case CURRENT_TIMESTAMP => {"CURRENT_TIMESTAMP"}
    case SQL_TSI_SECOND => {"SQL_TSI_SECOND"}
    case SQL_TSI_MINUTE => {"SQL_TSI_MINUTE"}
    case SQL_TSI_HOUR => {"SQL_TSI_HOUR"}
    case SQL_TSI_DAY => {"SQL_TSI_DAY", "DAY"}
    case SQL_TSI_WEEK => {"SQL_TSI_WEEK"}
    case SQL_TSI_MONTH => {"SQL_TSI_MONTH"}
    case SQL_TSI_YEAR => {"SQL_TSI_YEAR"}
    case _ => {}
  }

  function ScalarSpellings(f: ScalarFunction): set<string> {
    match f
    case ABS => {"ABS"}
    case ACOS => {"ACOS"}
    case ASIN => {"ASIN"}
    case ATAN => {"ATAN"}
    case CEILING => {"CEILING"}
    case COS => {"COS"}
    case EXP => {"EXP"}
    case FLOOR => {"FLOOR"}
    case LOG => {"LOG"}
    case LOG10 => {"LOG10"}
    case MOD => {"MOD"}
    case PI => {"PI"}
    case POWER => {"POWER"}
    case RAND => {"RAND"}
    case ROUND => {"ROUND"}
    case SIN => {"SIN"}
    case SQRT => {"SQRT"}
    case TAN => {"TAN"}
    case TRUNCATE => {"TRUNCATE"}
    case CHAR_LENGTH => {"CHAR_LENGTH"}
    case CHARACTER_LENGTH => {"CHARACTER_LENGTH"}
    case CONCAT => {"CONCAT"}
    case LCASE => {"LCASE"}
    case LOWER => {"LOWER"}
    case LENGTH => {"LENGTH"}
    case OCTET_LENGTH => {"OCTET_LENGTH"}
    case REPLACE => {"REPLACE"}
    case SUBSTRING => {"SUBSTRING"}
    case UCASE => {"UCASE"}
    case UPPER => {"UPPER"}
    case CURDATE => {"CURDATE"}
    case CURRENT_DATE => {"CURRENT_DATE"}
    case DAYOFMONTH => {"DAYOFMONTH"}
    case DAYOFWEEK => {"DAYOFWEEK"}
    case DAYOFYEAR => {"DAYOFYEAR"}
    case EXTRACT => {"EXTRACT"}
    case TIMESTAMPADD => {"TIMESTAMPADD"}
    case HOUR => {"HOUR"}
    case MINUTE => {"MINUTE"}
    case MONTH => {"MONTH"}
    case NOW => {"NOW"}
    case SECOND => {"SECOND"}
    case TIMESTAMPDIFF => {"TIMESTAMPDIFF"}
    case WEEK => {"WEEK"}
    case SQL_TSI_QUARTER => {"SQL_TSI_QUARTER", "QUARTER"}
    case YEAR => {"YEAR"}
    case IFNULL => {"IFNULL"}
  }

  lemma {:induction false} ScalarKeyword(word: string)
    requires LookupIdent(word).Scalar?
    ensures word in ScalarSpellings(LookupIdent(word).f)
  {
  }

  lemma {:induction false} OtherKeyword(word: string)
    requires !LookupIdent(word).Scalar? && LookupIdent(word) != IDENT
    ensures word in Spellings(LookupIdent(word))
  {
  }

  /** No other words are keywords. */
  lemma {:induction false} KeywordSpelled(word: string)
    ensures LookupIdent(word) == IDENT || word in Spellings(LookupIdent(word))
  {
    if LookupIdent(word).Scalar? {
      ScalarKeyword(word);
    } else if LookupIdent(word) != IDENT {
      OtherKeyword(word);
    }
  }
}
