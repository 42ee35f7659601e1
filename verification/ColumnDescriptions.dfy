/** What a column is described as, from the text of its type. */
module ColumnDescriptions {
  import Decimals
  import opened TypeParser
  import opened TypeRoundTrip
  import opened ColumnTypes

  /** `text` is the type `t`, written with any blanks between the tokens. */
  ghost predicate Writes(text: string, t: TypeAst) {
    Printable(t) && exists sp: Spaced :: BlankGaps(sp) && TokensOf(sp) == SpellType(t, End) && TextOf(sp) == text
  }

  lemma {:induction false} Parsed(text: string, t: TypeAst, unset: Meta)
    requires Writes(text, t)
    ensures Ends(TokensAt(text, 0)) && ParsedType(text, unset) == t
  {
    var sp :| BlankGaps(sp) && TokensOf(sp) == SpellType(t, End) && TextOf(sp) == text;
    TypeRoundTrips(t, sp, unset);
  }

  function Argument(t: TypeAst): Elements { Append(None, t) }

  lemma {:induction false} BelowNullable(t: TypeAst)
    ensures Underlying(TypeAst(Nullable, "Nullable", 0, Argument(t))) == Underlying(t)
  {
    assert UnderlyingFirst(Argument(t)) == Underlying(t);
  }

  /** `Nullable(t)` is a column that may be null, and otherwise what `t` is. */
  lemma {:induction false} NullableDescribed(
      outer: string, inner: string, t: TypeAst, unset: Meta, info: ColumnInfo)
    requires Writes(inner, t) && Writes(outer, TypeAst(Nullable, "Nullable", 0, Argument(t)))
    ensures DescribedBy(outer, unset, info) == DescribedBy(inner, unset, info).(isNullable := true)
  {
    Parsed(inner, t, unset);
    Parsed(outer, TypeAst(Nullable, "Nullable", 0, Argument(t)), unset);
    BelowNullable(t);
  }

  /** A plain type is its name; whether the column may be null is left as it is. */
  lemma {:induction false} PlainDescribed(text: string, name: string, unset: Meta, info: ColumnInfo)
    requires Writes(text, TypeAst(Terminal, name, 0, None))
    ensures DescribedBy(text, unset, info) == info.(withoutParameters := name)
  {
    Parsed(text, TypeAst(Terminal, name, 0, None), unset);
  }

  /** A sole parameter that is a number is the size; any other sets it to 0. */
  lemma {:induction false} SizedDescribed(text: string, name: string, t: TypeAst, unset: Meta, info: ColumnInfo)
    requires Writes(text, TypeAst(Terminal, name, 0, Argument(t)))
    ensures DescribedBy(text, unset, info)
         == info.(withoutParameters := name, fixedSize := if t.meta == Number then t.size else 0)
  {
    Parsed(text, TypeAst(Terminal, name, 0, Argument(t)), unset);
    assert PrintableElements(Argument(t)) && Printable(t);
  }

  /** Several parameters say nothing. */
  lemma {:induction false} ParametersIgnored(text: string, name: string, es: Elements, unset: Meta, info: ColumnInfo)
    requires Writes(text, TypeAst(Terminal, name, 0, es)) && es.Append? && es.front.Append?
    ensures DescribedBy(text, unset, info) == info.(withoutParameters := name)
  {
    Parsed(text, TypeAst(Terminal, name, 0, es), unset);
  }

  /** Arrays, tuples, nulls and numbers are taken for strings. */
  lemma {:induction false} OthersDescribed(text: string, t: TypeAst, unset: Meta, info: ColumnInfo)
    requires Writes(text, t) && (t.meta == Array || t.meta == Tuple || t.meta == Null || t.meta == Number)
    ensures DescribedBy(text, unset, info) == info.(withoutParameters := "String")
  {
    Parsed(text, t, unset);
  }

  /** So is a text with a character that belongs in no type. */
  lemma {:induction false} UnreadableDescribed(text: string, i: nat, unset: Meta, info: ColumnInfo)
    requires i < |text| && !TypeChar(text[i])
    ensures DescribedBy(text, unset, info) == info.(withoutParameters := "String")
  {
    EndsExactly(text, 0);
  }

  // ---- An example

  const SIXTEEN := TypeAst(Number, "", 16, None)
  const FIXED := TypeAst(Terminal, "FixedString", 0, Argument(SIXTEEN))
  const NULLABLE_FIXED := TypeAst(Nullable, "Nullable", 0, Argument(FIXED))

  /** `name(` and `arguments`. */
  function Applied(name: string, arguments: Spaced): Spaced {
    Next("", NameToken(name), Next("", LPar, arguments))
  }

  /** `)` and what follows. */
  function Closed(end: Spaced): Spaced { Next("", RPar, end) }

  function Sixteen(end: Spaced): Spaced { Next("", NumberToken("16"), end) }

  lemma {:induction false} SixteenSpelled(tail: Tokens)
    ensures SpellType(SIXTEEN, tail) == Then(NumberToken("16"), tail)
  {
    assert Decimals.Decimal(1) == "1";
    assert Decimals.Decimal(16) == "16";
  }

  /** A name with one parameter. */
  lemma {:induction false} AppliedSpelled(t: TypeAst, argument: TypeAst, inner: Spaced, end: Spaced)
    requires t.meta != Number && t.elements == Argument(argument) && BlankGaps(inner)
    requires TokensOf(inner) == SpellType(argument, TokensOf(Closed(end)))
    ensures BlankGaps(Applied(t.name, inner)) && TokensOf(Applied(t.name, inner)) == SpellType(t, TokensOf(end))
  {
    assert SpellElements(Argument(argument), Then(RPar, TokensOf(end))) == TokensOf(inner);
    assert BlankGaps(Next("", LPar, inner));
  }

  lemma {:induction false} FixedSpelled(end: Spaced)
    requires BlankGaps(end)
    ensures var sp := Applied("FixedString", Sixteen(Closed(end)));
            BlankGaps(sp) && TokensOf(sp) == SpellType(FIXED, TokensOf(end))
  {
    assert BlankGaps(Closed(end));
    SixteenSpelled(TokensOf(Closed(end)));
    AppliedSpelled(FIXED, SIXTEEN, Sixteen(Closed(end)), end);
  }

  lemma {:induction false} FixedPrintable()
    ensures Printable(FIXED) && Printable(NULLABLE_FIXED)
  {
    assert Printable(SIXTEEN);
  }

  lemma {:induction false} FixedWrites(text: string)
    requires text == "FixedString(16)"
    ensures Writes(text, FIXED)
  {
    FixedPrintable();
    FixedSpelled(Last(""));
    assert TextOf(Applied("FixedString", Sixteen(Closed(Last(""))))) == text;
  }

  lemma {:induction false} NullableText(inner: Spaced, text: string)
    requires TextOf(inner) == "FixedString(16))" && text == "Nullable(FixedString(16))"
    ensures TextOf(Applied("Nullable", inner)) == text
  {
  }

  lemma {:induction false} NullableWrites(text: string)
    requires text == "Nullable(FixedString(16))"
    ensures Writes(text, NULLABLE_FIXED)
  {
    FixedPrintable();
    var end := Closed(Last(""));
    var inner := Applied("FixedString", Sixteen(Closed(end)));
    FixedSpelled(end);
    AppliedSpelled(NULLABLE_FIXED, FIXED, inner, Last(""));
    assert TextOf(inner) == "FixedString(16))";
    NullableText(inner, text);
  }

  lemma {:induction false} NullableExample(unset: Meta)
    ensures DescribedBy("Nullable(FixedString(16))", unset, NEW_COLUMN)
         == ColumnInfo("", "", "FixedString", 0, 16, true)
  {
    FixedWrites("FixedString(16)");
    NullableWrites("Nullable(FixedString(16))");
    NullableDescribed("Nullable(FixedString(16))", "FixedString(16)", FIXED, unset, NEW_COLUMN);
    SizedDescribed("FixedString(16)", "FixedString", SIXTEEN, unset, NEW_COLUMN);
  }
}
