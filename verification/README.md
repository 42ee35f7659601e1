# A verified model of the driver's text and data transformations

This project models, in Dafny, the parts of the ODBC driver that compute: the rewriting of ODBC escape
sequences in a query, the buffering of result rows, the parser of column types, and the copying and
splitting of strings at the driver's edge. Everything is proved for all inputs; nothing here was
executed.

## What is modelled

**The escape rewriter** (`driver/escaping`). `Lexer` is the lexer with its lookahead queue and its switch
for emitting blanks; `TokenForms` says what a token looks like without scanning, and `Keywords`,
`KeywordWords` and `UnitNames` what the words are. `EscapeRewriter` holds the mutually recursive methods
that rewrite one `{...}`, each tied to a function in `EscapeSequences`; the number of unread characters and
queued tokens is the measure that all of them, and the machines below, decrease. `EscapeTrees` defines
escape sequences as trees, calls that the rewriter gives up on included, and gives each tree a meaning that
mentions no lexer; `EscapeTranslation` proves that rewriting computes it, and `LiteralEscapes` says it of
dates and time stamps by themselves. `OpenCalls`, `UsedUpText`,
`OperandFailures` and `NestedFailures` draw from this which calls are not translated and what they do to the
calls around them. `ReplaceEscapes` is the brace scanner around it, `WholeQuery` the theorems about complete
queries. `StateMachine` re-quotes column names with a machine per subquery; `ColumnWalk` is the same walk
over tokens; `ColumnWalkProperties`, `ColumnWalkExact` and `RequotedText` say what it keeps, `LostTokens`
what is lost, `ColumnConversion`, `AliasRuns` and `ColumnPatterns` what it converts, and `UnalteredText`
when it changes nothing. `QueryPhrases` reads a query as its author means it, as columns, aliases, tables,
clauses and subqueries, and proves that exactly the columns are re-quoted. `TextSteps` puts texts together
token by token; `EscapeExample`, `FailureExamples`, `OperandExamples`, `RequoteExample` and `AliasExample`
follow single texts through all of this.

**Result sets** (`driver/read_helpers.cpp`, `driver/result_set.cpp`). `InputStream` and `ResultSet` are
the classes; `RowBuffers` describes their steps on values. `BufferedFetch` proves that the queue of rows
read ahead and the block of rows to hand out cannot be noticed, `WireFormat` adds a reference encoder, and
`BrokenResponses` says what becomes of responses that are cut off or end their header early.

**Column types** (`driver/type_parser.cpp`). The parser builds its tree in place through a pointer and a
stack of pointers. In the model the nodes live in a growing sequence and a pointer is an index into it;
`IsTree` relates the nodes, the pointer and the stack to a tree with a focus. `ColumnDescriptions` says what
a column is described as, from the text of its type.

**Strings** (`driver/utils.h`, `driver/connection.cpp`). `FillOutputString` writes a caller's array;
`Connection` prints and reads connection strings, and `ConnectionKeys` says what each key sets.

## Findings

- A query loses text in re-quoting unless its parentheses and SELECTs fit a condition that
  `ColumnWalkExact.AllTokensWrittenExactly` makes exact, and `ColumnWalkExact.KeptExactly` says which
  tokens are lost (`driver/escaping/state_machine.cpp:125-155`). Behind a surplus `)` everything is: of
  `SELECT a)x` only `SELECT a)` is left. A subquery of several SELECTs costs one token for each further
  SELECT: of `SELECT a FROM(SELECT b UNION SELECT c)x` the `x` is missing, and with a blank in front of
  the `x` the blank is (`LostTokens.FurtherSelectsLoseTokens`, `RequoteExample`).
- At a vertical tab where a token should start the lexer returns the same empty token for ever
  (`driver/escaping/lexer.cpp:125-133`, `227-233`). `LexerProperties.ReadingEndsExactly` shows that
  nothing else keeps it from the end of the text; that is what its methods require.
- An identifier whose `"` is never closed is dropped together with the rest of the text
  (`driver/escaping/lexer.cpp:170-188`); `LexerProperties.Lossless` shows that nothing else is.
- Some calls of TIMESTAMPADD, LTRIM and LOCATE are not translated because an operand is not read as it
  should be. If such a call is the whole sequence, that comes back as it stands:
  - A bare CURRENT_TIMESTAMP is accepted as an operand, but its token is not consumed
    (`driver/escaping/escape_sequences.cpp:139-140`): `{fn TIMESTAMPADD(SQL_TSI_DAY, 1, CURRENT_TIMESTAMP)}`
    (`OperandFailures.TimestampOperandStays`, `FailureExamples.NowExample`).
  - Behind the name of a scalar function the next token is taken for its parenthesis, whatever it is
    (`driver/escaping/escape_sequences.cpp:126-129`, `85-88`), and all is read through the next unmatched
    `)`, which is the call's own, or to the end of the text. So a function without parentheses fails, and
    so does a column called `month`, `length` or `log`, and a function with a blank in front of its
    parenthesis: `{fn TIMESTAMPADD(SQL_TSI_DAY, 1, CURRENT_DATE)}`, `{fn LTRIM(LCASE (x))}`
    (`UsedUpText.WordStays`, `UsedUpText.LastWordStays`, `FailureExamples.TodayExample`,
    `OperandExamples.BlankExample`). If nothing but a brace is left then, the calls around such a call come
    back with it.
  - Once an operand has switched blanks on, `g (x)` is read as the name `g` alone
    (`driver/escaping/escape_sequences.cpp:132-138`, `OperandFailures.NameBeforeBlankStays`).
  - Units that are not functions too, the words D, T and TS, and CONVERT, LOCATE and LTRIM without braces
    are no operands, nor are columns called like them (`OperandFailures.WordNoOperandStays`). A column
    called `fn` starts another item, and the sequence is written twice: `{fn LTRIM(fn)}`
    (`OperandFailures.FnDoubles`, `OperandExamples.FnExample`).
  - An expression such as `a + 1` is read as `a`, and no comma or parenthesis is found behind it
    (`OperandFailures.InVainStays`). LOCATE does not look at what it finds there
    (`driver/escaping/escape_sequences.cpp:248-256`): `{fn LOCATE(a + b, c)}` becomes `position(b,a)`
    (`OperandExamples.SumExample`).
  - `{fn LOCATE(a, b)}` is not translated: looking for the third operand, the rewriter consumes the closing
    brace (`driver/escaping/escape_sequences.cpp:255-256`, `UsedUpText.LocateWithoutOffsetStays`,
    `OperandExamples.LocateExample`).
- Inside the arguments of another call, an escape that is given up at some token spoils the whole sequence:
  the sequence as it stood is written in its place, and the outer call ends at the next closing brace. If
  the escape was given up before its own brace, that is the one, and what is behind it is lost: `{fn
  CONCAT({fn TIMESTAMPADD(SQL_TSI_DAY, 1, CURRENT_TIMESTAMP)}, 'x')}` becomes `concat(`, itself and `)`
  (`driver/escaping/escape_sequences.cpp:281-284`, `395-396`, `NestedFailures.FailureSpliced`,
  `NestedFailures.InVainSpliced`, `FailureExamples.NestedNowExample`).
- Aliases are noted as they are written but looked up in upper case, so that only an upper-case alias is
  recognised (`driver/escaping/state_machine.cpp:81-86`, `93`, `AliasRuns.AliasInRun`): of
  `SELECT value "tags.a" FROM x ORDER BY "tags.a"` the last name becomes `"tags"."a"`
  (`AliasExample.AliasUsed`, with AS `AliasExample.AsAliasUsed`).
- Only a column's alias is kept. Behind a function or an expression AS means nothing to the machine, and
  the name behind it is taken for a column (`driver/escaping/state_machine.cpp:88-105`,
  `QueryPhrases.RoleRead`): in `SELECT count(x) AS "tags.a"` the alias becomes `"tags"."a"`.
- The token behind a subquery's parenthesis is copied without a state
  (`driver/escaping/state_machine.cpp:146-155`): a name there is neither a column nor an alias nor a table
  (`QueryPhrases.Skipped`).
- A response that is cut off between two rows is taken for a complete one, and one that is cut off anywhere
  else behind its header is not (`driver/result_set.cpp:212`, `BrokenResponses.RowsCut`).
- A connection string is read back faithfully exactly if no value holds a semicolon.
- `{}` is rewritten to the empty text, since the closing brace is accepted before any keyword
  (`driver/escaping/escape_sequences.cpp:372-391`; `EscapeProperties.UnsupportedStays`,
  `EscapeExample.EmptyBraces`).
- An EXTRACT among the arguments of a function switches the rewriting of unit names off not only for its
  own parentheses but up to the closing brace (`driver/escaping/escape_sequences.cpp:287-293`).

## Conventions

- Text is a sequence of characters with the character classes of the C locale on ASCII. Reading one
  character beyond the text yields NUL, as the terminator of a `std::string` does.
- `KEYWORDS` in `driver/escaping/lexer.cpp:15-34` is a map built from a list with repeated keys (`HOUR`
  and similar names stand for a function and for a unit); the first entry stands.
- The table of forbidden sequences is empty (`driver/escaping/escape_sequences.cpp:71-72`), so that pass
  is the identity.
- Where the unit tests of the rewriter expect other texts (`driver/ut/escape_sequences_ut.cpp:114`, `207`),
  the model follows the code and its table `driver/escaping/function_declare.h`.
- `COLUMN_REGEX` and `COLUMN_WITH_POINT_REGEX` (`driver/escaping/state_machine.h:19-20`) are written out
  as predicates and a leftmost search instead of a regular-expression engine.
- A query as a whole is required to be one that the rewriter finishes: the sequences it cuts out and what
  it makes of them can be read to their ends (`ReplaceEscapes.Finishes`). Every query without a vertical tab
  is (`ReplaceEscapes.CleanFinishes`), and one inside a string does no harm.
- A C++ exception is a result: `ok == false`, `Incomplete` or `None`. Lengths on the wire are
  little-endian, as on the hosts the driver is built for.
- A mutator is a function on the columns and a function on rows; no mutator of the driver consults the
  columns to change a row (`driver/result_set.cpp:8-13`, `driver/odbc.cpp:681-734`).
- A `TypeAst` on the stack has no category before the parser sets one; `unset` stands for whatever is
  there.
- Type texts in a header must be such that the parser never pops an empty stack and every `Nullable` has
  an argument; elsewhere the source reads memory that is not there (`ColumnTypes.Readable`).
- `Poco::NumberParser::tryParse` is a parameter; the round trip assumes of it only that it reads the
  port's own decimal form.
- The buffers handed to `FillOutputString` are as long as the caller says, and lengths fit their types.

## Model

| member | source | states |
|---|---|---|
| `Lexer.Lexer.Consume` | driver/escaping/lexer.cpp:56-64 | hands out the first queued token, or else the next one of the text, and the rest of the token stream stays as it was |
| `Lexer.Lexer.ConsumeExpected` | driver/escaping/lexer.cpp:66-78 | hands the next token out only if it has the expected kind; otherwise an INVALID one, and the stream is only looked at |
| `Lexer.Lexer.LookAhead` | driver/escaping/lexer.cpp:80-86 | the token at position `n`; the queue grows to `n+1` tokens and the stream is otherwise unchanged |
| `Lexer.Lexer.Match` | driver/escaping/lexer.cpp:88-99 | true exactly if the next token has the kind, and consumes it exactly then |
| `Lexer.Lexer.Peek` | driver/escaping/lexer.cpp:112-114 | the next token, which stays queued |
| `Lexer.Lexer.SetEmitSpaces` | driver/escaping/lexer.cpp:116-118 | changes the mode and neither the queue nor the text still to be read |
| `Lexer.Lexer.NextToken` | driver/escaping/lexer.cpp:120-239 | the character-by-character loops find the token and the position that the reference scan finds, in either mode; the loops end on every text that can be read to its end |
| `Lexer.Lexer.ReadString` | driver/escaping/lexer.cpp:148-165 | the string ends behind the first quote with an even number of backslashes directly in front of it, and is INVALID, to the end of the text, exactly if there is none |
| `Lexer.Lexer.ReadQuoted` | driver/escaping/lexer.cpp:170-188 | an identifier in double quotes ends at the first closing quote that no dot follows; a character that belongs in no name, or a quote that opens nothing, makes it INVALID there; unterminated it becomes the end of the text |
| `Lexer.Lexer.ReadIdent` | driver/escaping/lexer.cpp:191-199 | the longest run of letters, digits, `_`, `.` and `-`, looked up as a keyword in upper case |
| `Lexer.Lexer.ReadNumber` | driver/escaping/lexer.cpp:201-225 | the longest run of digits with at most one dot; INVALID exactly if a further dot follows, or a minus and it starts with one |
| `Lexer.Lexer.MakeToken` | driver/escaping/lexer.cpp:102-110 | the slice behind the old position, which the new one follows |
| `Lexer.NextIsPull` | driver/escaping/lexer.cpp:120-131 | not emitting blanks is the same as dropping them from the stream that contains them |
| `LexerProperties.ReadingEndsExactly` | driver/escaping/lexer.cpp:120-239 | reading a text comes to an end if and only if no token starts at a vertical tab; inside a string one does no harm |
| `LexerProperties.LexableExactly` | driver/escaping/lexer.cpp:120-239 | the precondition of the lexer says exactly that reading ends, and a text without a vertical tab meets it |
| `LexerProperties.NextTokenSlice` | driver/escaping/lexer.cpp:120-239 | every token is the slice between the old and the new position, and the position advances except exactly at a vertical tab |
| `LexerProperties.Lossless` | driver/escaping/lexer.cpp:120-239 | the literals of all tokens, INVALID ones included, are the text up to the last token; a tail is lost exactly if it starts with an unterminated `"` |
| `LexerProperties.LookAheadValue` | driver/escaping/lexer.cpp:80-86 | looking `n` ahead shows what the `n+1`st plain call would return |
| `LexerProperties.LookaheadInvisible` | driver/escaping/lexer.cpp:56-114 | any run of Consume, Consume(kind), Match, Peek and LookAhead calls consumes the plain token stream in order and leaves the rest of it |
| `LexerProperties.SetEmitSpacesKeepsQueued` | driver/escaping/lexer.cpp:116-118 | switching the mode cannot change tokens that are already queued, nor a stream without blanks |
| `LexerPrinting.LexemeLocal` | driver/escaping/lexer.cpp:120-239 | a token depends on its own characters and the next one only |
| `LexerPrinting.PrintedTokens` | driver/escaping/lexer.cpp:120-239 | a token sequence is what its own text is read as if and only if each token stands alone in front of the next |
| `TokenForms.LexemeExactly` | driver/escaping/lexer.cpp:120-239 | the token that starts at a position is exactly the one of a form said of the text without a scan: its first character, and the first position at which the form of that character ends |
| `TokenForms.EscapedString` | driver/escaping/lexer.cpp:148-165 | any content with a backslash in front of every quote and backslash, between quotes and in front of any text, is one string token |
| `Keywords.KeywordSpelled` | driver/escaping/lexer.cpp:15-43 | no word is a keyword but the spellings listed for its kind |
| `KeywordWords.KeywordsRead` | driver/escaping/lexer.cpp:15-43 | the keywords that are no functions are read as such |
| `KeywordWords.NumericWords1` | driver/escaping/function_declare.h:8-31 | these words are functions, and called so on the server (likewise NumericWords2, NumericWords3) |
| `KeywordWords.TextWords1` | driver/escaping/function_declare.h:37-58 | the functions on strings (likewise TextWords2 to TextWords4, IFNULL among them) |
| `KeywordWords.DateWords1` | driver/escaping/function_declare.h:62-78 | the functions on dates (likewise DateWords2 to DateWords9) |
| `UnitNames.SecondToDay` | driver/escaping/escape_sequences.cpp:60-69 | the unit of the keyword SQL_TSI_X is called x, in lower case (likewise WeekAndMonth and QuarterAndYear) |
| `UnitNames.UnitsExactly` | driver/escaping/escape_sequences.cpp:60-69 | these eight kinds of tokens are units, and no others |
| `EscapeRewriter.ProcessParentheses` | driver/escaping/escape_sequences.cpp:85-114 | the loop returns the text and leaves the lexer, its mode and queue included, as the reference function says; it ends on every input that the lexer accepts |
| `EscapeRewriter.ProcessIdentOrFunction` | driver/escaping/escape_sequences.cpp:116-148 | one operand, with blanks around it skipped; the empty text, which stands for failure, exactly where no operand starts |
| `EscapeRewriter.ProcessFunction` | driver/escaping/escape_sequences.cpp:150-313 | dispatch on the function after FN |
| `EscapeRewriter.ProcessTimestampAdd` | driver/escaping/escape_sequences.cpp:192-238 | TIMESTAMPADD: unit, two operands, and each way it gives up |
| `EscapeRewriter.ProcessLocate` | driver/escaping/escape_sequences.cpp:240-260 | LOCATE, with the three tokens it consumes unchecked, tied to the reference function |
| `EscapeRewriter.ProcessLtrim` | driver/escaping/escape_sequences.cpp:262-270 | LTRIM, likewise |
| `EscapeRewriter.ProcessArguments` | driver/escaping/escape_sequences.cpp:272-300 | the arguments of a renamed function, up to the closing brace; blanks are emitted meanwhile and not afterwards |
| `EscapeRewriter.ProcessDate` | driver/escaping/escape_sequences.cpp:315-322 | the string literal, or the whole sequence if there is none |
| `EscapeRewriter.ProcessDateTime` | driver/escaping/escape_sequences.cpp:356-363 | the string literal without its fraction, or the whole sequence |
| `EscapeRewriter.RemoveMilliseconds` | driver/escaping/escape_sequences.cpp:324-354 | the backward loop computes the reference function |
| `EscapeRewriter.ProcessEscapeSequencesImpl` | driver/escaping/escape_sequences.cpp:365-399 | one `{...}` does what the reference function says, of which `EscapeTranslation.TranslateItems`, `LiteralEscapes.TimestampRewritten` and `EscapeProperties.UnsupportedStays` say what it means for FN, D, TS and all other words; it ends on every input that the lexer accepts |
| `EscapeRewriter.ProcessEscapeSequences` | driver/escaping/escape_sequences.cpp:401-404 | a sequence rewritten with a lexer of its own |
| `EscapeTranslation.TranslateEscape` | driver/escaping/escape_sequences.cpp:85-399 | every well-formed escape tree, of any depth and with calls in it that are given up, is rewritten to its meaning whatever follows it, and the lexer is left just behind it with nothing queued |
| `EscapeTranslation.TranslateItems` | driver/escaping/escape_sequences.cpp:372-398 | any number of the words FN, D and TS with what belongs to them: their meanings in order if a brace closes the escape, and the whole sequence if any other token ends it |
| `EscapeTranslation.TranslateAddInterval` | driver/escaping/escape_sequences.cpp:192-238 | TIMESTAMPADD(unit, amount, date) becomes the server function with the bare unit name and the meanings of both operands |
| `EscapeTranslation.TranslateLocate` | driver/escaping/escape_sequences.cpp:240-260 | LOCATE with three operands, the last of which may be missing, becomes `position` of the second in the first, the two exchanged and the offset dropped, whatever tokens stand behind the operands |
| `EscapeTranslation.TranslateLtrim` | driver/escaping/escape_sequences.cpp:262-270 | LTRIM becomes a replacement of leading blanks in the meaning of its operand |
| `EscapeTranslation.TranslateArgs` | driver/escaping/escape_sequences.cpp:272-300 | arguments are copied verbatim but for unit names, which become literals until an EXTRACT comes, and nested escapes, which are translated; the brace stays queued |
| `EscapeTranslation.TranslateExtract` | driver/escaping/escape_sequences.cpp:287-293 | an EXTRACT among the arguments takes over the rest of them and leaves units alone |
| `EscapeTranslation.TranslateBody` | driver/escaping/escape_sequences.cpp:90-113 | inside parentheses nested escapes are translated and everything else is kept, through the matching parenthesis |
| `EscapeTranslation.TranslateOperand` | driver/escaping/escape_sequences.cpp:116-148 | each form of operand is read as its meaning says and the lexer left with the token behind it: literals, names, groups, calls, escapes, the name of a scalar function with any token for its parenthesis, a CURRENT_TIMESTAMP that is not consumed, and none at all |
| `EscapeTranslation.TranslatePartial` | driver/escaping/escape_sequences.cpp:150-313 | each way a function gives up at a token, at an unknown name or unit, a missing comma or parenthesis or a missing operand: the whole sequence is written, and that token is found next |
| `UsedUpText.UsedUpStays` | driver/escaping/escape_sequences.cpp:150-399 | a call in which an operand uses the text up comes back as it stands, and so does everything around it, at any depth of calls |
| `UsedUpText.WordStays` | driver/escaping/escape_sequences.cpp:85-129 | the name of a scalar function in any place, followed by any token and then text up to the parenthesis that closes the call, leaves the call and all calls around it untranslated |
| `UsedUpText.LastWordStays` | driver/escaping/escape_sequences.cpp:85-129 | so does such a name behind which no parenthesis is left to close the one that is taken for its own |
| `UsedUpText.LocateWithoutOffsetStays` | driver/escaping/escape_sequences.cpp:243-260 | LOCATE with two operands that is the whole sequence comes back as it is: the closing brace is consumed as the token behind the missing third |
| `OperandFailures.InVainGivenUp` | driver/escaping/escape_sequences.cpp:150-313 | a well-formed operand in any place, and a token behind it where the call does not go on: wherever it stands, the call is given up at a definite token, and what it leaves is what follows that |
| `OperandFailures.InVainStays` | driver/escaping/escape_sequences.cpp:150-399 | if that call is the whole sequence, it comes back as it stands |
| `OperandFailures.TimestampOperandStays` | driver/escaping/escape_sequences.cpp:139-270 | a bare CURRENT_TIMESTAMP in any place is such an operand |
| `OperandFailures.NameBeforeBlankStays` | driver/escaping/escape_sequences.cpp:132-270 | so is a name whose parenthesis stands behind a blank, once blanks are emitted, whatever the parentheses hold |
| `OperandFailures.WordGivenUp` | driver/escaping/escape_sequences.cpp:116-143 | a word that starts no operand, in any place: the call is given up there, wherever it stands; behind D and TS a literal is looked for first |
| `OperandFailures.WordNoOperandStays` | driver/escaping/escape_sequences.cpp:116-399 | if that call is the whole sequence, it comes back as it stands |
| `OperandFailures.FnDoubles` | driver/escaping/escape_sequences.cpp:372-396 | FN as such a word starts another item, and the whole sequence is written twice |
| `NestedFailures.FailureSpliced` | driver/escaping/escape_sequences.cpp:272-300 | an escape that is given up among the arguments of a call: the server name, the arguments in front, the whole sequence, the arguments up to the next brace, and nothing of what follows |
| `NestedFailures.InVainSpliced` | driver/escaping/escape_sequences.cpp:272-300 | the same for every call that reads an operand in vain |
| `EscapeTranslation.TranslationCorrect` | driver/escaping/escape_sequences.cpp:365-404 | for every text whose tokens spell a well-formed tree and any others behind it, rewriting gives the meaning of the tree, and the others are lost |
| `EscapeTranslation.PrintedTreeTranslates` | driver/escaping/escape_sequences.cpp:365-404 | the same from the printed form: print a well-formed tree whose tokens stand apart, rewrite, and get its meaning |
| `EscapeProperties.ParenthesesVerbatim` | driver/escaping/escape_sequences.cpp:85-114 | over tokens without an escape, exactly the text through the matching `)` is returned, blanks included, and the lexer stops there with blanks still emitted |
| `EscapeProperties.ParenthesesRunOut` | driver/escaping/escape_sequences.cpp:85-114 | if they do not close, the text is read to its end, whatever token stands for the opening parenthesis |
| `EscapeProperties.ParenthesesStop` | driver/escaping/escape_sequences.cpp:85-114 | an INVALID token ends the reading of all parentheses open there: the text in front of it is returned, and the token stays queued |
| `EscapeProperties.UnsupportedStays` | driver/escaping/escape_sequences.cpp:389-396 | a brace whose first word is none of FN, D and TS comes back as it is, except that an empty pair of braces disappears: it is kept if and only if the first word is not the closing brace |
| `EscapeProperties.MillisecondsCut` | driver/escaping/escape_sequences.cpp:324-354 | a fraction, digits behind the only dot of the last run of digits and dots, is cut off with its dot, and a closing quote stays |
| `EscapeProperties.NoMillisecondsToCut` | driver/escaping/escape_sequences.cpp:324-354 | a token without such a fraction comes back as it is |
| `LiteralEscapes.DateRewritten` | driver/escaping/escape_sequences.cpp:315-322 | `{`, D, a string and `}`, with any blanks between and any text behind, become the string |
| `LiteralEscapes.TimestampRewritten` | driver/escaping/escape_sequences.cpp:324-363 | likewise with TS: the string without its fraction, or the string itself if it has none |
| `LiteralEscapes.DateTextRewritten` | driver/escaping/escape_sequences.cpp:315-404 | the text `{d "..."}` with single quotes, whatever content is escaped in it, becomes the quoted content |
| `LiteralEscapes.TimestampTextRewritten` | driver/escaping/escape_sequences.cpp:324-404 | likewise `ts`, without the fraction |
| `EscapeCharacters.RewriteSequenceClean` | driver/escaping/escape_sequences.cpp:401-404 | rewriting never introduces a vertical tab, so that what it returns can be lexed again |
| `ReplaceEscapes.SegmentsPartition` | driver/escaping/escape_sequences.cpp:445-481 | plain segments and brace segments together are the query, and every segment given to the rewriter is a `{` through the `}` that closes it and nothing beyond |
| `ReplaceEscapes.BraceEndDepth` | driver/escaping/escape_sequences.cpp:452-477 | the end found is where the surplus of braces first returns to zero; there is none exactly if it never does |
| `ReplaceEscapes.ScanBraces` | driver/escaping/escape_sequences.cpp:446-481 | the loop over characters reports a stray `}` exactly if some prefix has more `}` than `{`, and otherwise computes the segments with their sequences rewritten |
| `ReplaceEscapes.ReplaceEscapeSequences` | driver/escaping/escape_sequences.cpp:445-487 | the whole: the query itself if a brace is stray, and otherwise its expansion, re-quoted |
| `ReplaceEscapes.CleanFinishes` | driver/escaping/escape_sequences.cpp:445-487 | on every query without a vertical tab the rewriter finishes: the sequences and what it makes of them can be read to their ends |
| `WholeQuery.SegmentsOfText` | driver/escaping/escape_sequences.cpp:445-481 | the cut is the only one: joining texts without braces and balanced sequences and cutting again gives them back |
| `WholeQuery.ProperNotStray` | driver/escaping/escape_sequences.cpp:464-468 | such a query has no stray brace |
| `WholeQuery.QueryTranslates` | driver/escaping/escape_sequences.cpp:445-487 | a query written from texts and well-formed escapes becomes its texts and the meanings of its escapes, re-quoted |
| `WholeQuery.CleanMeaning` | driver/escaping/escape_sequences.cpp:445-487 | if such a query has no vertical tab, what it becomes has none either and can be re-quoted |
| `WholeQuery.UnsupportedSequenceStays` | driver/escaping/escape_sequences.cpp:365-399 | a sequence whose first word is no escape keyword is left alone, whatever else is in it |
| `WholeQuery.PipelineIdentityExactly` | driver/escaping/escape_sequences.cpp:445-487 | a query without stray braces and supported escapes comes back unchanged if and only if it keeps its tokens and none of them is converted |
| `WholeQuery.PipelineIdentity` | driver/escaping/escape_sequences.cpp:445-487 | a query comes back unchanged if a brace is stray, or if no escape is supported, all tokens are kept, and no token is converted, for which it is enough that none that can be a column holds a quoted ENTITY, TAGS or METRIC with a dot |
| `StateMachine.StateMachine.Write` | driver/escaping/state_machine.cpp:126-142 | what is written for the current token and how the level moves |
| `StateMachine.StateMachine.Turn` | driver/escaping/state_machine.cpp:125-156 | one turn of the loop does one step of the reference walk |
| `StateMachine.StateMachine.RunSubquery` | driver/escaping/state_machine.cpp:146-150 | a subquery is written by a machine of its own on the same lexer, and the level falls by one |
| `StateMachine.StateMachine.Run` | driver/escaping/state_machine.cpp:117-158 | the loop, with its recursive machines, writes what the reference walk writes and leaves the tokens it leaves; `QueryPhrases.QueryRead` says what that is; it ends on every input that the lexer accepts |
| `StateMachine.UnquoteColumnNames` | driver/escaping/escape_sequences.cpp:433-441 | re-quoting of a whole query |
| `ColumnWalkProperties.SubqueryExact` | driver/escaping/state_machine.cpp:125-155 | if every later SELECT directly follows an opening parenthesis, a machine consumes exactly from its SELECT through the parenthesis that closes the one before it, at any depth, and writes every token of that |
| `ColumnWalkProperties.SubqueryRestoresLevel` | driver/escaping/state_machine.cpp:129-155 | behind a parenthesised subquery the outer machine has the same level, state and aliases as before the opening parenthesis, also at the end of the query |
| `ColumnWalkExact.KeptExactly` | driver/escaping/state_machine.cpp:117-158 | in any situation of any nesting of machines, the tokens written are exactly those that one pass over parentheses and SELECTs keeps |
| `ColumnWalkExact.TokensWritten` | driver/escaping/state_machine.cpp:117-158 | so for every query that starts with SELECT: which tokens are written and which are lost |
| `ColumnWalkExact.FitsExact` | driver/escaping/state_machine.cpp:117-158 | in any situation of any nesting of machines, all remaining tokens get written if and only if they fit it |
| `ColumnWalkExact.AllTokensWrittenExactly` | driver/escaping/state_machine.cpp:117-158 | every token of a query that starts with SELECT is written, in order, if and only if the query fits: a condition on its parentheses and SELECTs alone, read off in one pass |
| `RequotedText.RequoteKeepsText` | driver/escaping/state_machine.cpp:46-59 | converting a column adds two double quotes or nothing, and no other text |
| `RequotedText.RequotingKeepsText` | driver/escaping/state_machine.cpp:117-158 | for a query that fits, deleting all `"` before and after re-quoting gives the same text, and the two are equal if and only if no token is converted |
| `RequotedText.RequotedExactly` | driver/escaping/state_machine.cpp:117-158 | of any query that starts with SELECT nothing is left but the text of the kept tokens, up to double quotes |
| `RequotedText.UnquotedExactly` | driver/escaping/state_machine.cpp:117-158 | and exactly that text if the query holds no double quote |
| `RequotedText.WellNestedFits` | driver/escaping/state_machine.cpp:117-158 | a query without surplus `)` whose later SELECTs stand directly behind `(` fits |
| `UnalteredText.RequotingIsIdentity` | driver/escaping/state_machine.cpp:117-158 | a query comes back unchanged if and only if it keeps all its tokens and none of them is converted: lost double quotes never make up for added ones |
| `RequotedText.NothingToConvert` | driver/escaping/state_machine.cpp:46-59 | no token is converted if none that can be a column holds a quoted ENTITY, TAGS or METRIC with a dot; string literals do not matter |
| `RequotedText.SurplusParenthesisLosesText` | driver/escaping/state_machine.cpp:133-138 | what follows a surplus `)` is dropped, exactly from there |
| `LostTokens.FurtherSelectsLoseTokens` | driver/escaping/state_machine.cpp:129-155 | a subquery of k SELECTs more than one, as with UNION, costs exactly the k tokens behind its closing parenthesis |
| `ColumnConversion.NextGrounded` | driver/escaping/state_machine.cpp:12-115 | whatever the state, the next one converts its token only if the token matches the column pattern or is too short to be changed |
| `ColumnConversion.ConvertedAreColumns` | driver/escaping/state_machine.cpp:46-59 | in a whole run, subqueries included, every token written otherwise than it stands matches the column pattern and is written converted |
| `ColumnConversion.SelectListConverted` | driver/escaping/state_machine.cpp:12-45 | behind SELECT each column of a comma-separated list is converted, and blanks and commas are kept |
| `ColumnConversion.AliasKept` | driver/escaping/state_machine.cpp:34-37 | a name directly behind a column is an alias: kept as it stands and noted |
| `ColumnConversion.AsAliasKept` | driver/escaping/state_machine.cpp:24-37 | so is a name behind a column and AS: all of it is kept, and the name is noted |
| `ColumnConversion.NameInClause` | driver/escaping/state_machine.cpp:88-105 | behind the select list a name is kept exactly if its upper-case form is a noted alias or it is no column |
| `AliasRuns.AliasInRun` | driver/escaping/state_machine.cpp:12-105 | in a whole run an alias is kept where it is introduced, and in a clause behind the select list exactly if it is in upper case, or converting it changes nothing, or its upper-case form is another alias |
| `QueryPhrases.RoleRead` | driver/escaping/state_machine.cpp:12-115 | a word in its role, as column, alias, known alias, AS, comma, FROM or JOIN, table name or other word, leads to the place and the aliases behind it, and only a column is re-quoted; each branch of each state is covered |
| `QueryPhrases.PhrasesRead` | driver/escaping/state_machine.cpp:117-158 | any part of a query, with parentheses and subqueries of any depth, read from any place on: exactly the columns are re-quoted, and the machine goes on with the level it had |
| `QueryPhrases.QueryRead` | driver/escaping/state_machine.cpp:117-158 | so is a whole query: written as it is read, to its last token |
| `QueryPhrases.TextRead` | driver/escaping/escape_sequences.cpp:433-441 | and a text whose tokens it is |
| `QueryPhrases.OneRole` | driver/escaping/state_machine.cpp:12-115 | wherever a word stands it has exactly one role |
| `ColumnPatterns.ColumnExactly` | driver/escaping/state_machine.h:19 | a name matches the column pattern exactly if it stands on one line and contains a digit or one of six words; DATETIME adds nothing to TIME |
| `ColumnPatterns.RequotedThere` | driver/escaping/state_machine.cpp:46-59 | at the first quoted ENTITY, TAGS or METRIC, in any case, with a dot and a further character behind it and a quote on the same line, that dot becomes `"."` |
| `ColumnPatterns.NotRequoted` | driver/escaping/state_machine.cpp:46-59 | a name without such a place stays as it is |
| `ColumnConversion.TableNameKept` | driver/escaping/state_machine.cpp:107-115 | the name behind FROM or JOIN is kept as it stands, even one that matches the column pattern |
| `ReadHelpers.InputStream.ReadSize` | driver/read_helpers.cpp:4-6 | four bytes as a signed little-endian number; missing bytes count as zero and spoil the stream |
| `ReadHelpers.InputStream.ReadString` | driver/read_helpers.cpp:8-24 | the text of the given length, null for -1, the old value for other negative lengths, and the exception exactly if the stream is too short |
| `ReadHelpers.SizeRoundTrip` | driver/read_helpers.cpp:4-6 | every 32-bit length is read back from its four bytes |
| `ReadHelpers.FieldRoundTrip` | driver/read_helpers.cpp:8-24 | every field, null or not, is read back from its encoding, and exactly its bytes are consumed |
| `BrokenResponses.SizePadded` | driver/read_helpers.cpp:4-6 | a length of which bytes are missing is that of the bytes padded with zeros |
| `BrokenResponses.NegativeLength` | driver/read_helpers.cpp:17-20 | the length -1 makes a field null, and any other negative length leaves it as it was |
| `BrokenResponses.FieldCut` | driver/read_helpers.cpp:22-24 | a field of which any bytes are missing at the end is recognised as incomplete |
| `ColumnTypes.AssignTypeInfo` | driver/result_set.cpp:98-110 | walks the nodes the parser left in memory: `Nullable` makes the column nullable, a plain type gives its name, any other that is not below `Nullable` counts as String; see `ColumnDescriptions` for all of it |
| `ColumnTypes.DescribeColumn` | driver/result_set.cpp:145-153 | a type text is parsed and described; one that cannot be parsed counts as String |
| `ColumnDescriptions.NullableDescribed` | driver/result_set.cpp:103-105 | from the text of a type t: Nullable(t) is nullable and otherwise what t is |
| `ColumnDescriptions.PlainDescribed` | driver/result_set.cpp:99-102 | a type that is only a name, not one of the four special ones, gives that name and changes nothing else |
| `ColumnDescriptions.SizedDescribed` | driver/result_set.cpp:99-102 | a sole parameter gives the size: its number, and 0 if it is none |
| `ColumnDescriptions.ParametersIgnored` | driver/result_set.cpp:99-102 | several parameters are ignored |
| `ColumnDescriptions.OthersDescribed` | driver/result_set.cpp:106-109 | arrays, tuples, nulls and numbers count as String |
| `ColumnDescriptions.UnreadableDescribed` | driver/result_set.cpp:149-153 | so does every text with a character that belongs in no type |
| `ResultSet.ResultSet.ReadRow` | driver/result_set.cpp:213-222 | one row is decoded and every display size raised to what it needs |
| `ResultSet.ResultSet.ReadNextBlockCache` | driver/result_set.cpp:209-229 | up to 1000 rows are appended to the queue; true exactly if there was one |
| `ResultSet.ResultSet.ReadNextBlock` | driver/result_set.cpp:231-248 | the block is replaced by up to `row_array_size` adapted rows from the front of the queue, which is refilled whenever it is empty |
| `ResultSet.ResultSet.Fetch` | driver/result_set.cpp:189-203 | the next row of the block or of the next one, the empty row at the end; the count of rows, and the application's copy of it, grow with every row handed out and only then |
| `ResultSet.ResultSet.ReadCells` | driver/result_set.cpp:138-141 | the cells of a name or type row reach their columns |
| `ResultSet.ResultSet.SkipCells` | driver/result_set.cpp:160-166 | the cells of an unknown row are consumed |
| `ResultSet.ResultSet.ReadTitledRow` | driver/result_set.cpp:125-166 | one header row, and the early return when it has no columns |
| `ResultSet.ResultSet.Init` | driver/result_set.cpp:112-171 | the header, the change the mutator makes to the columns, and the first block |
| `BufferedFetch.ReadAheadSound` | driver/result_set.cpp:209-229 | reading ahead appends exactly the next decoded rows, as many as asked for or all there are, and raises the display sizes accordingly |
| `BufferedFetch.SuppliedSound` | driver/result_set.cpp:209-241 | when no row is left a thousand are read ahead, or all that the stream holds, and otherwise none |
| `BufferedFetch.FillBlockSound` | driver/result_set.cpp:231-248 | filling a block keeps the accounts: rows decoded = handed out + left in the block + read ahead, in order and adapted once; the block gets the rows asked for, and fewer only at the end of the stream |
| `BufferedFetch.FetchSound` | driver/result_set.cpp:189-248 | one fetch keeps the accounts and hands out the next decoded row, adapted, or the empty row when the stream is at its end and all rows are handed out |
| `BufferedFetch.FetchesDeliver` | driver/result_set.cpp:189-248 | any number of fetches with any positive block sizes delivers the rows of the stream in order, each adapted once, and only empty rows behind them; `rows` counts the deliveries, and the display sizes are the maxima over all decoded rows |
| `BufferedFetch.LongestIsMaximum` | driver/result_set.cpp:218-219 | the display size of a column bounds the lengths of all decoded fields and is the length of one of them |
| `BufferedFetch.AllRowsSplit` | driver/result_set.cpp:209-229 | decoding a part and then the rest is decoding the whole |
| `WireFormat.RowsRoundTrip` | driver/result_set.cpp:209-229 | decoding recovers any rows from the reference encoder, nulls included, to the last byte |
| `BrokenResponses.RowsCut` | driver/result_set.cpp:209-229 | rows cut off after any number of bytes are recognised as incomplete if and only if the cut is not between two rows |
| `WireFormat.HeaderRoundTrip` | driver/result_set.cpp:124-167 | any header rows are consumed exactly, each with its effect on the columns, and unknown ones have none |
| `WireFormat.HeaderColumns` | driver/result_set.cpp:136-166 | name and type rows in either order, among any unknown rows, give each column its name and type |
| `WireFormat.InitRoundTrip` | driver/result_set.cpp:112-171 | after `init` on an encoded response the columns are those of the header and the rows that follow are those encoded |
| `BrokenResponses.HeaderEndsEarly` | driver/result_set.cpp:121-130 | a header row with no cell behind its title ends `init`: the columns are those of the rows in front, not adapted, and no row is fetched; a negative count of header rows never runs out |
| `BrokenResponses.NoHeader` | driver/result_set.cpp:116-122 | an empty response and one with no header rows have no columns |
| `BrokenResponses.NoColumnsNoRows` | driver/result_set.cpp:189-191 | without columns every fetch hands out the empty row and reads nothing |
| `WireFormat.WireRoundTrip` | driver/result_set.cpp:112-248 | names, types, rows and nulls of an encoded response come back from `init` and any fetches, whatever the block sizes; the display sizes are the maxima over a prefix of the rows that holds all delivered ones |
| `TypeParser.TypeParser.NextToken` | driver/type_parser.cpp:77-122 | the next token of the text, skipping blanks; names, numbers, punctuation, the end, or a character that starts nothing |
| `TypeParser.TypeParser.Pop` | driver/type_parser.cpp:58-61 | the current node becomes the one on top of the stack |
| `TypeParser.TypeParser.Push` | driver/type_parser.cpp:53-57 | a new last element of the current node becomes current and its parent goes onto the stack |
| `TypeParser.TypeParser.Apply` | driver/type_parser.cpp:44-68 | what a token does to the nodes in memory is what it does to the tree they stand for |
| `TypeParser.TypeParser.Turn` | driver/type_parser.cpp:41-74 | one turn of the loop reads a token and does its step, and the stack still suffices for the rest |
| `TypeParser.TypeParser.Parse` | driver/type_parser.cpp:37-75 | true exactly if the text has no character that starts no token; the nodes in memory then form the tree of the reference run |
| `TypeParser.StackOfTree` | driver/type_parser.cpp:37-75 | nodes that stand for a tree have a stack of the size of its path, with the root at the bottom, and each node on the path is the last element of the one before: above one more copy of the root, or by itself after a comma outside all parentheses |
| `TypeRoundTrip.StackCounts` | driver/type_parser.cpp:53-68 | the stack has as many nodes as there are open parentheses, and one more |
| `TypeRoundTrip.RootStays` | driver/type_parser.cpp:58-68 | if no prefix has more `)` than `(`, no pop finds the stack empty and the root stays on it |
| `TypeRoundTrip.ParseSpelled` | driver/type_parser.cpp:37-75 | from an untouched node, the tokens of any printable type rebuild it there, and parsing goes on behind them |
| `TypeRoundTrip.ReadSpaced` | driver/type_parser.cpp:77-122 | tokens written with any blanks between them are read back |
| `TypeRoundTrip.TypeRoundTrips` | driver/type_parser.cpp:12-75 | printing any type of names, numbers up to 2147483647 and argument lists, with any blanks, and parsing it gives it back: category, name, size and elements in order |
| `TypeRoundTrip.EndsExactly` | driver/type_parser.cpp:77-122 | a text is parsed to its end if and only if it holds letters, digits, blanks, parentheses and commas only |
| `TypeRoundTrip.NumberClamped` | driver/type_parser.cpp:5-11 | a number that does not fit an `int` is the largest that does |
| `Decimals.DecimalValue` | driver/type_parser.cpp:5-11 | a printed number is read back as itself |
| `Utils.FillOutputString` | driver/utils.h:172-211 | the buffer gets the whole string if it fits with a terminator and otherwise `b/w - 1` characters, then a terminator, and no change behind it, for every character width and every limit; the reported length and the return code |
| `Utils.FillTruncated` | driver/utils.h:201-206 | when the string does not fit, exactly `b/w - 1` whole characters and a terminator, also if the limit is no multiple of the width |
| `Utils.FittingBound` | driver/utils.h:199-206 | what is written never exceeds the limit; it is the whole string if and only if that and a terminator fit, and otherwise one more character would not |
| `Utils.ReportedLengthSuffices` | driver/utils.h:178-199 | a buffer of the reported length and one more character takes the whole string |
| `Utils.NextKeyValuePair` | driver/utils.h:44-72 | the pair found with `memchr` is the reference one |
| `Utils.NextPairShape` | driver/utils.h:44-72 | a pair is found exactly if a `=` follows, its key holds no `=` and its value no `;`, and it consumes exactly itself and the semicolon behind it; every step advances |
| `Connection.Connection.ConnectionString` | driver/connection.cpp:57-69 | the printed pairs of the connection, the password only if there is one |
| `Connection.Connection.SetText` | driver/connection.cpp:141-185 | a pair changes the setting its key names and no other |
| `Connection.Connection.SetNumber` | driver/connection.cpp:155-177 | a number is set, the port truncated to sixteen bits, or nothing changes and the source throws |
| `Connection.Connection.ReadConnectionString` | driver/connection.cpp:128-186 | the loop over the pairs computes the reference fold, and stops exactly where the source throws |
| `ConnectionRoundTrip.ReadPairs` | driver/connection.cpp:137-186 | printed pairs are read back one by one, embedded `=` included |
| `ConnectionRoundTrip.ReadClean` | driver/connection.cpp:137-186 | no setting that was read holds a `;` |
| `ConnectionRoundTrip.PrintedText` | driver/connection.cpp:57-69 | the pairs are printed in this order, the password only if there is one |
| `ConnectionKeys.AccountKeys` | driver/connection.cpp:141-152 | a pair with the key uid, pwd, proto or url, in any case, sets exactly that setting |
| `ConnectionKeys.PlaceKeys` | driver/connection.cpp:153-179 | likewise host or server, database and dsn |
| `ConnectionKeys.FileKeys` | driver/connection.cpp:180-185 | likewise the three files |
| `ConnectionKeys.SslModes` | driver/connection.cpp:147-150 | allow, prefer and require ask for https, the last for strictness too, and other modes change nothing |
| `ConnectionKeys.NumberKeys` | driver/connection.cpp:155-177 | port, timeout and stringmaxlength: the numbers, the timeout set twice and the port cut to sixteen bits, or the exception |
| `ConnectionKeys.OtherKeys` | driver/connection.cpp:137-186 | any other key changes nothing |
| `ConnectionRoundTrip.ConnectionStringRoundTrips` | driver/connection.cpp:57-186 | reading the connection string of a connection into a new one recovers dsn, database, proto, server, port, user and password if and only if no value holds a `;` |

## Left out

- HTTP and TLS sessions, URIs, Base64, retries, ini files, setup dialogs and logging: input and output
  through foreign libraries.
- ODBC entry points, attribute and information tables, handle allocation: dispatch over constants.
- UTF-8 and UTF-16 conversion, character classes of other locales, and the numeric and date getters of
  `Field`.
- `std::regex` as an engine: the two patterns the state machine uses are written out.
- EscapeTranslation.TranslationCorrect: the trees do not cover texts that end before an escape does
  (`UsedUpText.UsedUpStays` says what becomes of calls in calls then), nor INVALID tokens inside
  parentheses (`EscapeProperties.ParenthesesStop` says how those are read).
- EscapeTranslation.TranslateOperand: `{}` as an operand, whose text is empty and therefore counts as none,
  is not covered.
- Quoting and unquoting of names by the `unicode_t` string classes.
- ResultSet.ResultSet.Fetch: the state of the buffers after an exception in the middle of a block is not
  described, and neither is fetching on after it.
- BufferedFetch.FetchesDeliver: speaks of streams of whole rows. On a truncated stream each row that is
  delivered is still the right one (`BufferedFetch.FetchSound`), but reading ahead may report the
  truncation before the rows in front of it are delivered.
- ResultSet.ResultSet.Init: works on a new result set, as `reset` makes one; the source does not clear
  the buffers of a used one.
- TypeParser.TypeParser.Parse: element lists of the standard library are sequences of indices, and nodes
  are never freed.
- Connection.Connection.ReadConnectionString: the loop over the pairs; the session, the configuration
  file and the defaults that `init` goes on to are not part of this model.
- Utils.FillOutputString: arithmetic does not wrap around.
