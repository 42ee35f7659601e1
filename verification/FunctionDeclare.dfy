/** The scalar functions the driver maps one to one, in the order the source lists them. */
module FunctionDeclare {
  datatype ScalarFunction =
    | ABS | ACOS | ASIN | ATAN | CEILING | COS | EXP | FLOOR | LOG | LOG10 | MOD | PI | POWER
    | RAND | ROUND | SIN | SQRT | TAN | TRUNCATE
    | CHAR_LENGTH | CHARACTER_LENGTH | CONCAT | LCASE | LOWER | LENGTH | OCTET_LENGTH | REPLACE
    | SUBSTRING | UCASE | UPPER
    | CURDATE | CURRENT_DATE | DAYOFMONTH | DAYOFWEEK | DAYOFYEAR | EXTRACT | TIMESTAMPADD
    | HOUR | MINUTE | MONTH | NOW | SECOND | TIMESTAMPDIFF | WEEK | SQL_TSI_QUARTER | YEAR
    | IFNULL

  /** `function_map`: the name each function gets on the server. */
  function ServerName(f: ScalarFunction): (name: string)
    ensures name != ""
  {
    match f
    case ABS => "abs"
    case ACOS => "acos"
    case ASIN => "asin"
    case ATAN => "atan"
    case CEILING => "ceil"
    case COS => "cos"
    case EXP => "exp"
    case FLOOR => "floor"
    case LOG => "log"
    case LOG10 => "log10"
    case MOD => "modulo"
    case PI => "pi"
    case POWER => "power"
    case RAND => "rand"
    case ROUND => "round"
    case SIN => "sin"
    case SQRT => "sqrt"
    case TAN => "tan"
    case TRUNCATE => "trunc"
    case CHAR_LENGTH => "lengthUTF8"
    case CHARACTER_LENGTH => "lengthUTF8"
    case CONCAT => "concat"
    case LCASE => "lowerUTF8"
    case LOWER => "lowerUTF8"
    case LENGTH => "lengthUTF8"
    case OCTET_LENGTH => "length"
    case REPLACE => "replaceAll"
    case SUBSTRING => "substringUTF8"
    case UCASE => "upperUTF8"
    case UPPER => "upperUTF8"
    case CURDATE => "today"
    case CURRENT_DATE => "today"
    case DAYOFMONTH => "DayOfMonth"
    case DAYOFWEEK => "DayOfWeek"
    case DAYOFYEAR => " DayOfYear"
    case EXTRACT => "EXTRACT"
    case TIMESTAMPADD => "dateAdd"
    case HOUR => "Hour"
    case MINUTE => "Minute"
    case MONTH => "Month"
    case NOW => "now"
    case SECOND => "Second"
    case TIMESTAMPDIFF => "dateDiff"
    case WEEK => "WeekOfYear"
    case SQL_TSI_QUARTER => "Quarter"
    case YEAR => "Year"
    case IFNULL => "ifNull"
  }
}
