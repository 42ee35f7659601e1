/** The token types and, for every position of a text, which token starts there and where it ends. */
module Tokens {
  import opened Chars
  import opened FunctionDeclare

  datatype TokenType =
    | INVALID | EOS | SPACE | OTHER
    | IDENT | NUMBER | STRING
    | FN | D | T | TS
    | Scalar(f: ScalarFunction)
    | CONVERT | LOCATE | LTRIM | CURRENT_TIMESTAMP
    | SQL_TSI_SECOND | SQL_TSI_MINUTE | SQL_TSI_HOUR | SQL_TSI_DAY | SQL_TSI_WEEK
    | SQL_TSI_MONTH | SQL_TSI_YEAR
    | COMMA | LPARENT | RPARENT | LCURLY | RCURLY

  datatype Token = Token(kind: TokenType, literal: string)

  const END_OF_TEXT := Token(EOS, "")

  /** `LookupIdent`.  Where the source's table lists a spelling twice the first entry stands. */
  function LookupIdent(ident: string): (kind: TokenType)
    ensures !kind.EOS? && !kind.SPACE? && !kind.LPARENT? && !kind.RPARENT?
  {
    match ident
    case "FN" => FN
    case "D" => D
    case "T" => T
    case "TS" => TS
    case "ABS" => Scalar(ABS)
    case "ACOS" => Scalar(ACOS)
    case "ASIN" => Scalar(ASIN)
    case "ATAN" => Scalar(ATAN)
    case "CEILING" => Scalar(CEILING)
    case "COS" => Scalar(COS)
    case "EXP" => Scalar(EXP)
    case "FLOOR" => Scalar(FLOOR)
    case "LOG" => Scalar(LOG)
    case "LOG10" => Scalar(LOG10)
    case "MOD" => Scalar(MOD)
    case "PI" => Scalar(PI)
    case "POWER" => Scalar(POWER)
    case "RAND" => Scalar(RAND)
    case "ROUND" => Scalar(ROUND)
    case "SIN" => Scalar(SIN)
    case "SQRT" => Scalar(SQRT)
    case "TAN" => Scalar(TAN)
    case "TRUNCATE" => Scalar(TRUNCATE)
    case "CHAR_LENGTH" => Scalar(CHAR_LENGTH)
    case "CHARACTER_LENGTH" => Scalar(CHARACTER_LENGTH)
    case "CONCAT" => Scalar(CONCAT)
    case "LCASE" => Scalar(LCASE)
    case "LOWER" => Scalar(LOWER)
    case "LENGTH" => Scalar(LENGTH)
    case "OCTET_LENGTH" => Scalar(OCTET_LENGTH)
    case "REPLACE" => Scalar(REPLACE)
    case "SUBSTRING" => Scalar(SUBSTRING)
    case "UCASE" => Scalar(UCASE)
    case "UPPER" => Scalar(UPPER)
    case "CURDATE" => Scalar(CURDATE)
    case "CURRENT_DATE" => Scalar(CURRENT_DATE)
    case "DAYOFMONTH" => Scalar(DAYOFMONTH)
    case "DAYOFWEEK" => Scalar(DAYOFWEEK)
    case "DAYOFYEAR" => Scalar(DAYOFYEAR)
    case "EXTRACT" => Scalar(EXTRACT)
    case "TIMESTAMPADD" => Scalar(TIMESTAMPADD)
    case "HOUR" => Scalar(HOUR)
    case "MINUTE" => Scalar(MINUTE)
    case "MONTH" => Scalar(MONTH)
    case "NOW" => Scalar(NOW)
    case "SECOND" => Scalar(SECOND)
    case "TIMESTAMPDIFF" => Scalar(TIMESTAMPDIFF)
    case "WEEK" => Scalar(WEEK)
    case "SQL_TSI_QUARTER" => Scalar(SQL_TSI_QUARTER)
    case "YEAR" => Scalar(YEAR)
    case "IFNULL" => Scalar(IFNULL)
    case "CONVERT" => CONVERT
    case "LOCATE" => LOCATE
    case "LTRIM" => LTRIM
    case "CURRENT_TIMESTAMP" => CURRENT_TIMESTAMP
    case "SQL_TSI_SECOND" => SQL_TSI_SECOND
    case "SQL_TSI_MINUTE" => SQL_TSI_MINUTE
    case "SQL_TSI_HOUR" => SQL_TSI_HOUR
    case "SQL_TSI_DAY" => SQL_TSI_DAY
    case "SQL_TSI_WEEK" => SQL_TSI_WEEK
    case "SQL_TSI_MONTH" => SQL_TSI_MONTH
    case "SQL_TSI_YEAR" => SQL_TSI_YEAR
    case "DAY" => SQL_TSI_DAY
    case "QUARTER" => Scalar(SQL_TSI_QUARTER)
    case _ => IDENT
  }

  // ---- Character scans; each names the position the source's pointer stops at.

  /** The character at `p`; a C++ string ends in a NUL. */
  function At(text: string, p: nat): char {
    if p < |text| then text[p] else '\0'
  }

  predicate IsBlank(c: char) {
    c == '\0' || c == ' ' || c == '\t' || c == '\U{000C}' || c == '\n' || c == '\r'
  }

  predicate IsIdentChar(c: char) {
    IsAlpha(c) || IsDigit(c) || c == '_' || c == '.' || c == '-'
  }

  predicate StartsIdent(c: char) { IsAlpha(c) || c == '_' }

  predicate StartsNumber(c: char) { IsDigit(c) || c == '.' || c == '-' }

  /** What kind of token was recognised and the position behind it. */
  datatype Lexeme = Lexeme(kind: TokenType, end: nat)

  function ScanString(text: string, p: nat, slash: bool): (l: Lexeme)
    requires p <= |text|
    ensures p <= l.end <= |text| && (l.kind == INVALID || l.kind == STRING)
    decreases |text| - p
  {
    if p == |text| then Lexeme(INVALID, p)
    else if text[p] == '\\' && !slash then ScanString(text, p + 1, true)
    else if text[p] == '\'' && !slash then Lexeme(STRING, p + 1)
    else ScanString(text, p + 1, false)
  }

  /** The scan behind an opening `"`.  Running off the end loses the token: the result is EOS. */
  function ScanQuoted(text: string, p: nat, inside: bool): (l: Lexeme)
    requires p <= |text|
    ensures p <= l.end && (if l.kind == EOS then l.end == |text| + 1 else l.end <= |text|)
    ensures l.kind == EOS || l.kind == INVALID || l.kind == IDENT
    decreases |text| - p
  {
    if p == |text| then Lexeme(EOS, p + 1)
    else if text[p] == '"' then
      if At(text, p + 1) == '.' then ScanQuoted(text, p + 2, !inside)
      else if inside then Lexeme(IDENT, p + 1)
      else if !IsIdentChar(At(text, p + 1)) then Lexeme(INVALID, p + 1)
      else ScanQuoted(text, p + 2, !inside)
    else if !IsIdentChar(text[p]) then Lexeme(INVALID, p)
    else ScanQuoted(text, p + 1, inside)
  }

  function ScanNumber(text: string, p: nat, hasDot: bool, hasMinus: bool): (l: Lexeme)
    requires p <= |text|
    ensures p <= l.end <= |text| && (l.kind == INVALID || l.kind == NUMBER)
    decreases |text| - p
  {
    if p == |text| then Lexeme(NUMBER, p)
    else if text[p] == '.' then
      if hasDot then Lexeme(INVALID, p) else ScanNumber(text, p + 1, true, hasMinus)
    else if text[p] == '-' && hasMinus then Lexeme(INVALID, p)
    else if !IsDigit(text[p]) then Lexeme(NUMBER, p)
    else ScanNumber(text, p + 1, hasDot, hasMinus)
  }

  function IdentEnd(text: string, p: nat): (end: nat)
    requires p <= |text|
    ensures p <= end <= |text|
    decreases |text| - p
  {
    if p < |text| && IsIdentChar(text[p]) then IdentEnd(text, p + 1) else p
  }

  function OtherEnd(text: string, p: nat): (end: nat)
    requires p <= |text|
    ensures p <= end <= |text|
    ensures p < |text| && !IsSpace(text[p]) ==> p < end
    decreases |text| - p
  {
    if p < |text| && !IsSpace(text[p]) then OtherEnd(text, p + 1) else p
  }

  /** A token that is neither a blank nor a delimiter. */
  function DefaultLexemeAt(text: string, p: nat): (l: Lexeme)
    requires p < |text|
    ensures p <= l.end && (if l.kind == EOS then l.end == |text| + 1 else l.end <= |text|)
    ensures l.end == p ==> IsSpace(text[p])
    ensures !l.kind.SPACE? && !l.kind.LPARENT? && !l.kind.RPARENT?
  {
    var c := text[p];
    if c == '\'' then ScanString(text, p + 1, false)
    else if c == '"' then ScanQuoted(text, p + 1, true)
    else if StartsIdent(c) then
      var end := IdentEnd(text, p + 1);
      Lexeme(LookupIdent(ToUpper(text[p..end])), end)
    else if StartsNumber(c) then ScanNumber(text, p + 1, c == '.', c == '-')
    else Lexeme(OTHER, OtherEnd(text, p))
  }

  /** The token that starts exactly at `p`. */
  function LexemeAt(text: string, p: nat): (l: Lexeme)
    requires p < |text|
    ensures p <= l.end && (if l.kind == EOS then l.end == |text| + 1 else l.end <= |text|)
    ensures l.end == p <==> text[p] == VERTICAL_TAB
    ensures l.kind == SPACE <==> IsBlank(text[p])
  {
    var c := text[p];
    if IsBlank(c) then Lexeme(SPACE, p + 1)
    else if c == '(' then Lexeme(LPARENT, p + 1)
    else if c == ')' then Lexeme(RPARENT, p + 1)
    else if c == '{' then Lexeme(LCURLY, p + 1)
    else if c == '}' then Lexeme(RCURLY, p + 1)
    else if c == ',' then Lexeme(COMMA, p + 1)
    else DefaultLexemeAt(text, p)
  }
}
