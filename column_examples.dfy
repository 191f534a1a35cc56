/** The column definitions of the driver's create-table tests: every column
    kind spelled as its Cloud Spanner type, and every kind of default value
    written as a literal of that type. */
module ColumnExamples {
  import opened Common
  import opened Text
  import opened Codec
  import opened SchemaTypes
  import opened SchemaGrammar
  import opened SchemaExamples
  import opened CreateExamples

  lemma Assoc(a: string, b: string, c: string)
    ensures a + (b + c) == a + b + c
  {}

  // ---- a column definition from its parts ----------------------------------------------

  /** Without a default: `` `name` type[ not null] ``. */
  lemma WithoutDefault(c: Column, quoted: string, ty: string, expected: string)
    requires Wrap(c.name) == quoted && TypeSql(TypeOf(c.kind)) == ty
    requires !c.useCurrent && c.defaultValue.None?
    requires quoted + " " + ty + NullSuffix(c) == expected
    ensures ColumnSql(c) == Ok(expected)
  {
    assert DefaultClause(c) == Ok("");
    assert quoted + " " + ty + NullSuffix(c) + "" == expected;
  }

  /** With a default value: the definition ends with `` default (literal)``. */
  lemma WithDefault(c: Column, quoted: string, ty: string, lit: string, expected: string)
    requires Wrap(c.name) == quoted && TypeSql(TypeOf(c.kind)) == ty
    requires !c.useCurrent && c.defaultValue.Some?
    requires DefaultLiteral(TypeOf(c.kind), c.defaultValue.value) == Ok(lit)
    requires quoted + " " + ty + NullSuffix(c) + " default (" + lit + ")" == expected
    ensures ColumnSql(c) == Ok(expected)
  {
    DefaultClauseOf(c, lit);
    DefaultRegroup(quoted + " " + ty + NullSuffix(c), lit);
    ColumnWithClause(c, " default (" + lit + ")");
  }

  lemma DefaultClauseOf(c: Column, lit: string)
    requires !c.useCurrent && c.defaultValue.Some?
    requires DefaultLiteral(TypeOf(c.kind), c.defaultValue.value) == Ok(lit)
    ensures DefaultClause(c) == Ok(" default (" + lit + ")")
  {}

  lemma DefaultRegroup(x: string, lit: string)
    ensures x + (" default (" + lit + ")") == x + " default (" + lit + ")"
  {}

  lemma ColumnWithClause(c: Column, d: string)
    requires DefaultClause(c) == Ok(d)
    ensures ColumnSql(c) == Ok(Wrap(c.name) + " " + TypeSql(TypeOf(c.kind)) + NullSuffix(c) + d)
  {}

  /** `useCurrent()`: the default is `CURRENT_TIMESTAMP()`. */
  lemma UsingCurrent(c: Column, quoted: string, ty: string, expected: string)
    requires Wrap(c.name) == quoted && TypeSql(TypeOf(c.kind)) == ty && c.useCurrent
    requires quoted + " " + ty + NullSuffix(c) + " default (CURRENT_TIMESTAMP())" == expected
    ensures ColumnSql(c) == Ok(expected)
  {
    UseCurrentDefault(c);
  }

  // ---- default literals -------------------------------------------------------------

  /** The instant both `'2022-01-01'` and `new Carbon('2022-01-01')` denote. */
  const NewYear2022: Instant := Instant(2022, 1, 1, 0, 0, 0, 0)

  lemma StringA() ensures QuoteString("a") == "\"a\"" {
    assert EscapeQuotes("a") == "a";
  }
  lemma StringB() ensures QuoteString("b") == "\"b\"" {
    assert EscapeQuotes("b") == "b";
  }

  lemma NewYearText() ensures DateText(NewYear2022) == "2022-01-01" {
    assert Pad(2022, 4) == "2022";
    assert Pad(1, 2) == "01";
  }
  lemma NewYearDate() ensures DateLiteral(NewYear2022) == "DATE \"2022-01-01\"" {
    NewYearText();
  }
  lemma NewYearTimeText() ensures TimestampText(NewYear2022) == "2022-01-01T00:00:00.000000+00:00" {
    NewYearText();
    assert Pad(0, 2) == "00";
    assert Pad(0, 6) == "000000";
    TS();
  }
  lemma TimestampQuote1() ensures "TIMESTAMP \"" + "2022-01-01T00:00:00.000000+00:00" == "TIMESTAMP \"2022-01-01T00:00:00.000000+00:00" {}
  lemma TimestampQuote2() ensures "TIMESTAMP \"2022-01-01T00:00:00.000000+00:00" + "\"" == "TIMESTAMP \"2022-01-01T00:00:00.000000+00:00\"" {}
  lemma NewYearTimestamp() ensures TimestampLiteral(NewYear2022) == "TIMESTAMP \"2022-01-01T00:00:00.000000+00:00\"" {
    NewYearTimeText();
    TimestampLiteralOf(NewYear2022, "2022-01-01T00:00:00.000000+00:00");
    TimestampQuote1();
    TimestampQuote2();
    Chain2("TIMESTAMP \"", "2022-01-01T00:00:00.000000+00:00", "\"", "TIMESTAMP \"2022-01-01T00:00:00.000000+00:00", "TIMESTAMP \"2022-01-01T00:00:00.000000+00:00\"");
  }

  /** An array default: the element literals, comma separated, in brackets. */
  lemma ArrayDefault(k: ColumnKind, e: ScalarType, elems: seq<Value>, ls: seq<string>, lit: string)
    requires TypeOf(k) == ArrayOf(e) && ElementDefaults(e, elems) == Ok(ls) && "[" + Join(ls, ", ") + "]" == lit
    ensures DefaultLiteral(TypeOf(k), VArray(elems)) == Ok(lit)
  {}

  lemma OneElementDefault(e: ScalarType, x: Value, lx: string)
    requires ScalarDefault(e, x) == Ok(lx)
    ensures ElementDefaults(e, [x]) == Ok([lx])
  {
    assert [x][1..] == [];
    assert [lx] + [] == [lx];
  }

  lemma TwoElementDefaults(e: ScalarType, x: Value, y: Value, lx: string, ly: string)
    requires ScalarDefault(e, x) == Ok(lx) && ScalarDefault(e, y) == Ok(ly)
    ensures ElementDefaults(e, [x, y]) == Ok([lx, ly])
  {
    assert [x, y][1..] == [y];
    OneElementDefault(e, y, ly);
    assert [lx] + [ly] == [lx, ly];
  }

  lemma OneJoined(lx: string) ensures Join([lx], ", ") == lx {}

  lemma TwoJoined(lx: string, ly: string) ensures Join([lx, ly], ", ") == lx + ", " + ly {
    assert [lx, ly][1..] == [ly];
  }

  lemma StringElement(l: Length, s: string, q: string)
    requires (l.Max? || |s| <= l.n) && QuoteString(s) == q
    ensures ScalarDefault(StringType(l), VString(s)) == Ok(q)
  {}

  lemma DateElement(t: Instant, lit: string)
    requires DateLiteral(t) == lit
    ensures ScalarDefault(DateType, VInstant(t)) == Ok(lit)
  {}

  lemma TimestampElement(t: Instant, lit: string)
    requires TimestampLiteral(t) == lit
    ensures ScalarDefault(TimestampType, VInstant(t)) == Ok(lit)
  {}

  lemma TimestampLiteralOf(t: Instant, text: string)
    requires TimestampText(t) == text
    ensures TimestampLiteral(t) == "TIMESTAMP \"" + text + "\""
  {}

  /** An array type is spelled `array<element>`. */
  lemma ArraySpelling(k: ColumnKind, e: ScalarType, es: string)
    requires TypeOf(k) == ArrayOf(e) && ScalarSql(e) == es
    ensures TypeSql(TypeOf(k)) == "array<" + es + ">"
  {}

  lemma TSText1() ensures "2022-01-01" + "T" == "2022-01-01T" {}
  lemma TSText2() ensures "2022-01-01T" + "00" == "2022-01-01T00" {}
  lemma TSText3() ensures "2022-01-01T00" + ":" == "2022-01-01T00:" {}
  lemma TSText4() ensures "2022-01-01T00:" + "00" == "2022-01-01T00:00" {}
  lemma TSText5() ensures "2022-01-01T00:00" + ":" == "2022-01-01T00:00:" {}
  lemma TSText6() ensures "2022-01-01T00:00:" + "00" == "2022-01-01T00:00:00" {}
  lemma TSText7() ensures "2022-01-01T00:00:00" + "." == "2022-01-01T00:00:00." {}
  lemma TSText8() ensures "2022-01-01T00:00:00." + "000000" == "2022-01-01T00:00:00.000000" {}
  lemma TSText9() ensures "2022-01-01T00:00:00.000000" + "+00:00" == "2022-01-01T00:00:00.000000+00:00" {}

  lemma TS()
    ensures "2022-01-01" + "T" + "00" + ":" + "00" + ":" + "00" + "." + "000000" + "+00:00" == "2022-01-01T00:00:00.000000+00:00"
  {
    TSText1(); TSText2(); TSText3(); TSText4(); TSText5(); TSText6(); TSText7(); TSText8(); TSText9(); Chain9("2022-01-01", "T", "00", ":", "00", ":", "00", ".", "000000", "+00:00", "2022-01-01T", "2022-01-01T00", "2022-01-01T00:", "2022-01-01T00:00", "2022-01-01T00:00:", "2022-01-01T00:00:00", "2022-01-01T00:00:00.", "2022-01-01T00:00:00.000000", "2022-01-01T00:00:00.000000+00:00");
  }

  // ---- type spellings ----------------------------------------------------------

  lemma UuidSpelling() ensures TypeSql(TypeOf(Uuid)) == "string(36)" { assert NatToString(36) == "36"; }
  lemma IntegerSpelling() ensures TypeSql(TypeOf(Integer)) == "int64" {  }
  lemma FloatSpelling() ensures TypeSql(TypeOf(Float)) == "float64" {  }
  lemma DecimalSpelling() ensures TypeSql(TypeOf(Decimal)) == "numeric" {  }
  lemma String255Spelling() ensures TypeSql(TypeOf(StringKind(255))) == "string(255)" { assert NatToString(255) == "255"; }
  lemma Char255Spelling() ensures TypeSql(TypeOf(CharKind(255))) == "string(255)" { assert NatToString(255) == "255"; }
  lemma TextSpelling() ensures TypeSql(TypeOf(Text)) == "string(max)" {  }
  lemma MediumTextSpelling() ensures TypeSql(TypeOf(MediumText)) == "string(max)" {  }
  lemma LongTextSpelling() ensures TypeSql(TypeOf(LongText)) == "string(max)" {  }
  lemma DateTimeSpelling() ensures TypeSql(TypeOf(DateTime)) == "timestamp" {  }
  lemma BinarySpelling() ensures TypeSql(TypeOf(Binary)) == "bytes(255)" { assert NatToString(255) == "255"; }
  lemma JsonSpelling() ensures TypeSql(TypeOf(Json)) == "json" {  }
  lemma IntegerArrayType() ensures TypeOf(IntegerArray) == ArrayOf(Int64Type) {}
  lemma IntegerArrayElement() ensures ScalarSql(Int64Type) == "int64" {  }
  lemma IntegerArrayText() ensures "array<" + "int64" + ">" == "array<int64>" {}
  lemma IntegerArraySpelling() ensures TypeSql(TypeOf(IntegerArray)) == "array<int64>" {
    IntegerArrayType(); IntegerArrayElement(); ArraySpelling(IntegerArray, Int64Type, "int64"); IntegerArrayText();
  }
  lemma BooleanArrayType() ensures TypeOf(BooleanArray) == ArrayOf(BoolType) {}
  lemma BooleanArrayElement() ensures ScalarSql(BoolType) == "bool" {  }
  lemma BooleanArrayText() ensures "array<" + "bool" + ">" == "array<bool>" {}
  lemma BooleanArraySpelling() ensures TypeSql(TypeOf(BooleanArray)) == "array<bool>" {
    BooleanArrayType(); BooleanArrayElement(); ArraySpelling(BooleanArray, BoolType, "bool"); BooleanArrayText();
  }
  lemma FloatArrayType() ensures TypeOf(FloatArray) == ArrayOf(Float64Type) {}
  lemma FloatArrayElement() ensures ScalarSql(Float64Type) == "float64" {  }
  lemma FloatArrayText() ensures "array<" + "float64" + ">" == "array<float64>" {}
  lemma FloatArraySpelling() ensures TypeSql(TypeOf(FloatArray)) == "array<float64>" {
    FloatArrayType(); FloatArrayElement(); ArraySpelling(FloatArray, Float64Type, "float64"); FloatArrayText();
  }
  lemma DecimalArrayType() ensures TypeOf(DecimalArray) == ArrayOf(NumericType) {}
  lemma DecimalArrayElement() ensures ScalarSql(NumericType) == "numeric" {  }
  lemma DecimalArrayText() ensures "array<" + "numeric" + ">" == "array<numeric>" {}
  lemma DecimalArraySpelling() ensures TypeSql(TypeOf(DecimalArray)) == "array<numeric>" {
    DecimalArrayType(); DecimalArrayElement(); ArraySpelling(DecimalArray, NumericType, "numeric"); DecimalArrayText();
  }
  lemma StringArrayDefaultType() ensures TypeOf(StringArray(None)) == ArrayOf(StringType(Fixed(255))) {}
  lemma StringArrayDefaultElement() ensures ScalarSql(StringType(Fixed(255))) == "string(255)" { assert NatToString(255) == "255"; }
  lemma StringArrayDefaultText() ensures "array<" + "string(255)" + ">" == "array<string(255)>" {}
  lemma StringArrayDefaultSpelling() ensures TypeSql(TypeOf(StringArray(None))) == "array<string(255)>" {
    StringArrayDefaultType(); StringArrayDefaultElement(); ArraySpelling(StringArray(None), StringType(Fixed(255)), "string(255)"); StringArrayDefaultText();
  }
  lemma StringArray1Type() ensures TypeOf(StringArray(Some(Fixed(1)))) == ArrayOf(StringType(Fixed(1))) {}
  lemma StringArray1Element() ensures ScalarSql(StringType(Fixed(1))) == "string(1)" { assert NatToString(1) == "1"; }
  lemma StringArray1Text() ensures "array<" + "string(1)" + ">" == "array<string(1)>" {}
  lemma StringArray1Spelling() ensures TypeSql(TypeOf(StringArray(Some(Fixed(1))))) == "array<string(1)>" {
    StringArray1Type(); StringArray1Element(); ArraySpelling(StringArray(Some(Fixed(1))), StringType(Fixed(1)), "string(1)"); StringArray1Text();
  }
  lemma StringArrayMaxType() ensures TypeOf(StringArray(Some(Max))) == ArrayOf(StringType(Max)) {}
  lemma StringArrayMaxElement() ensures ScalarSql(StringType(Max)) == "string(max)" {  }
  lemma StringArrayMaxText() ensures "array<" + "string(max)" + ">" == "array<string(max)>" {}
  lemma StringArrayMaxSpelling() ensures TypeSql(TypeOf(StringArray(Some(Max)))) == "array<string(max)>" {
    StringArrayMaxType(); StringArrayMaxElement(); ArraySpelling(StringArray(Some(Max)), StringType(Max), "string(max)"); StringArrayMaxText();
  }
  lemma TimestampArrayType() ensures TypeOf(TimestampArray) == ArrayOf(TimestampType) {}
  lemma TimestampArrayElement() ensures ScalarSql(TimestampType) == "timestamp" {  }
  lemma TimestampArrayText() ensures "array<" + "timestamp" + ">" == "array<timestamp>" {}
  lemma TimestampArraySpelling() ensures TypeSql(TypeOf(TimestampArray)) == "array<timestamp>" {
    TimestampArrayType(); TimestampArrayElement(); ArraySpelling(TimestampArray, TimestampType, "timestamp"); TimestampArrayText();
  }
  lemma TimestampSpelling() ensures TypeSql(TypeOf(Timestamp)) == "timestamp" {  }
  lemma BigIntegerSpelling() ensures TypeSql(TypeOf(BigInteger)) == "int64" {  }
  lemma DoubleSpelling() ensures TypeSql(TypeOf(Double)) == "float64" {  }
  lemma BooleanSpelling() ensures TypeSql(TypeOf(Boolean)) == "bool" {  }
  lemma DateSpelling() ensures TypeSql(TypeOf(Date)) == "date" {  }
  lemma DateArrayType() ensures TypeOf(DateArray) == ArrayOf(DateType) {}
  lemma DateArrayElement() ensures ScalarSql(DateType) == "date" {  }
  lemma DateArrayText() ensures "array<" + "date" + ">" == "array<date>" {}
  lemma DateArraySpelling() ensures TypeSql(TypeOf(DateArray)) == "array<date>" {
    DateArrayType(); DateArrayElement(); ArraySpelling(DateArray, DateType, "date"); DateArrayText();
  }

  // ---- the columns ----------------------------------------------------------------

  lemma TypedIdQuoted() ensures Wrap("id") == "`id`" {}
  lemma TypedIdDef1() ensures "`id`" + " " == "`id` " {}
  lemma TypedIdDef2() ensures "`id` " + "string(36)" == "`id` string(36)" {}
  lemma TypedIdDef3() ensures "`id` string(36)" + " not null" == "`id` string(36) not null" {}

  lemma TypedIdColumn()
    ensures ColumnSql(Column("id", Uuid, false, None, false, false, true)) == Ok("`id` string(36) not null")
  {
    TypedIdQuoted();
    UuidSpelling();
    TypedIdDef1();
    TypedIdDef2();
    TypedIdDef3();
    Chain3("`id`", " ", "string(36)", " not null", "`id` ", "`id` string(36)", "`id` string(36) not null");
    WithoutDefault(Column("id", Uuid, false, None, false, false, true), "`id`", "string(36)", "`id` string(36) not null");
  }
  lemma TypedIntQuoted() ensures Wrap("int") == "`int`" {}
  lemma TypedIntDef1() ensures "`int`" + " " == "`int` " {}
  lemma TypedIntDef2() ensures "`int` " + "int64" == "`int` int64" {}
  lemma TypedIntDef3() ensures "`int` int64" + " not null" == "`int` int64 not null" {}

  lemma TypedIntColumn()
    ensures ColumnSql(Column("int", Integer, false, None, false, false, false)) == Ok("`int` int64 not null")
  {
    TypedIntQuoted();
    IntegerSpelling();
    TypedIntDef1();
    TypedIntDef2();
    TypedIntDef3();
    Chain3("`int`", " ", "int64", " not null", "`int` ", "`int` int64", "`int` int64 not null");
    WithoutDefault(Column("int", Integer, false, None, false, false, false), "`int`", "int64", "`int` int64 not null");
  }
  lemma TypedFloatQuoted() ensures Wrap("float") == "`float`" {}
  lemma TypedFloatDef1() ensures "`float`" + " " == "`float` " {}
  lemma TypedFloatDef2() ensures "`float` " + "float64" == "`float` float64" {}
  lemma TypedFloatDef3() ensures "`float` float64" + " not null" == "`float` float64 not null" {}

  lemma TypedFloatColumn()
    ensures ColumnSql(Column("float", Float, false, None, false, false, false)) == Ok("`float` float64 not null")
  {
    TypedFloatQuoted();
    FloatSpelling();
    TypedFloatDef1();
    TypedFloatDef2();
    TypedFloatDef3();
    Chain3("`float`", " ", "float64", " not null", "`float` ", "`float` float64", "`float` float64 not null");
    WithoutDefault(Column("float", Float, false, None, false, false, false), "`float`", "float64", "`float` float64 not null");
  }
  lemma TypedDecimalQuoted() ensures Wrap("decimal") == "`decimal`" {}
  lemma TypedDecimalDef1() ensures "`decimal`" + " " == "`decimal` " {}
  lemma TypedDecimalDef2() ensures "`decimal` " + "numeric" == "`decimal` numeric" {}
  lemma TypedDecimalDef3() ensures "`decimal` numeric" + " not null" == "`decimal` numeric not null" {}

  lemma TypedDecimalColumn()
    ensures ColumnSql(Column("decimal", Decimal, false, None, false, false, false)) == Ok("`decimal` numeric not null")
  {
    TypedDecimalQuoted();
    DecimalSpelling();
    TypedDecimalDef1();
    TypedDecimalDef2();
    TypedDecimalDef3();
    Chain3("`decimal`", " ", "numeric", " not null", "`decimal` ", "`decimal` numeric", "`decimal` numeric not null");
    WithoutDefault(Column("decimal", Decimal, false, None, false, false, false), "`decimal`", "numeric", "`decimal` numeric not null");
  }
  lemma TypedNameQuoted() ensures Wrap("name") == "`name`" {}
  lemma TypedNameDef1() ensures "`name`" + " " == "`name` " {}
  lemma TypedNameDef2() ensures "`name` " + "string(255)" == "`name` string(255)" {}
  lemma TypedNameDef3() ensures "`name` string(255)" + " not null" == "`name` string(255) not null" {}

  lemma TypedNameColumn()
    ensures ColumnSql(Column("name", StringKind(255), false, None, false, false, false)) == Ok("`name` string(255) not null")
  {
    TypedNameQuoted();
    String255Spelling();
    TypedNameDef1();
    TypedNameDef2();
    TypedNameDef3();
    Chain3("`name`", " ", "string(255)", " not null", "`name` ", "`name` string(255)", "`name` string(255) not null");
    WithoutDefault(Column("name", StringKind(255), false, None, false, false, false), "`name`", "string(255)", "`name` string(255) not null");
  }
  lemma TypedCharQuoted() ensures Wrap("char") == "`char`" {}
  lemma TypedCharDef1() ensures "`char`" + " " == "`char` " {}
  lemma TypedCharDef2() ensures "`char` " + "string(255)" == "`char` string(255)" {}
  lemma TypedCharDef3() ensures "`char` string(255)" + " not null" == "`char` string(255) not null" {}

  lemma TypedCharColumn()
    ensures ColumnSql(Column("char", CharKind(255), false, None, false, false, false)) == Ok("`char` string(255) not null")
  {
    TypedCharQuoted();
    Char255Spelling();
    TypedCharDef1();
    TypedCharDef2();
    TypedCharDef3();
    Chain3("`char`", " ", "string(255)", " not null", "`char` ", "`char` string(255)", "`char` string(255) not null");
    WithoutDefault(Column("char", CharKind(255), false, None, false, false, false), "`char`", "string(255)", "`char` string(255) not null");
  }
  lemma TypedTextQuoted() ensures Wrap("text") == "`text`" {}
  lemma TypedTextDef1() ensures "`text`" + " " == "`text` " {}
  lemma TypedTextDef2() ensures "`text` " + "string(max)" == "`text` string(max)" {}
  lemma TypedTextDef3() ensures "`text` string(max)" + " not null" == "`text` string(max) not null" {}

  lemma TypedTextColumn()
    ensures ColumnSql(Column("text", Text, false, None, false, false, false)) == Ok("`text` string(max) not null")
  {
    TypedTextQuoted();
    TextSpelling();
    TypedTextDef1();
    TypedTextDef2();
    TypedTextDef3();
    Chain3("`text`", " ", "string(max)", " not null", "`text` ", "`text` string(max)", "`text` string(max) not null");
    WithoutDefault(Column("text", Text, false, None, false, false, false), "`text`", "string(max)", "`text` string(max) not null");
  }
  lemma TypedMediumTextQuoted() ensures Wrap("medium_text") == "`medium_text`" {}
  lemma TypedMediumTextDef1() ensures "`medium_text`" + " " == "`medium_text` " {}
  lemma TypedMediumTextDef2() ensures "`medium_text` " + "string(max)" == "`medium_text` string(max)" {}
  lemma TypedMediumTextDef3() ensures "`medium_text` string(max)" + " not null" == "`medium_text` string(max) not null" {}

  lemma TypedMediumTextColumn()
    ensures ColumnSql(Column("medium_text", MediumText, false, None, false, false, false)) == Ok("`medium_text` string(max) not null")
  {
    TypedMediumTextQuoted();
    MediumTextSpelling();
    TypedMediumTextDef1();
    TypedMediumTextDef2();
    TypedMediumTextDef3();
    Chain3("`medium_text`", " ", "string(max)", " not null", "`medium_text` ", "`medium_text` string(max)", "`medium_text` string(max) not null");
    WithoutDefault(Column("medium_text", MediumText, false, None, false, false, false), "`medium_text`", "string(max)", "`medium_text` string(max) not null");
  }
  lemma TypedLongTextQuoted() ensures Wrap("long_text") == "`long_text`" {}
  lemma TypedLongTextDef1() ensures "`long_text`" + " " == "`long_text` " {}
  lemma TypedLongTextDef2() ensures "`long_text` " + "string(max)" == "`long_text` string(max)" {}
  lemma TypedLongTextDef3() ensures "`long_text` string(max)" + " not null" == "`long_text` string(max) not null" {}

  lemma TypedLongTextColumn()
    ensures ColumnSql(Column("long_text", LongText, false, None, false, false, false)) == Ok("`long_text` string(max) not null")
  {
    TypedLongTextQuoted();
    LongTextSpelling();
    TypedLongTextDef1();
    TypedLongTextDef2();
    TypedLongTextDef3();
    Chain3("`long_text`", " ", "string(max)", " not null", "`long_text` ", "`long_text` string(max)", "`long_text` string(max) not null");
    WithoutDefault(Column("long_text", LongText, false, None, false, false, false), "`long_text`", "string(max)", "`long_text` string(max) not null");
  }
  lemma TypedStartedAtQuoted() ensures Wrap("started_at") == "`started_at`" {}
  lemma TypedStartedAtDef1() ensures "`started_at`" + " " == "`started_at` " {}
  lemma TypedStartedAtDef2() ensures "`started_at` " + "timestamp" == "`started_at` timestamp" {}
  lemma TypedStartedAtDef3() ensures "`started_at` timestamp" + " not null" == "`started_at` timestamp not null" {}

  lemma TypedStartedAtColumn()
    ensures ColumnSql(Column("started_at", DateTime, false, None, false, false, false)) == Ok("`started_at` timestamp not null")
  {
    TypedStartedAtQuoted();
    DateTimeSpelling();
    TypedStartedAtDef1();
    TypedStartedAtDef2();
    TypedStartedAtDef3();
    Chain3("`started_at`", " ", "timestamp", " not null", "`started_at` ", "`started_at` timestamp", "`started_at` timestamp not null");
    WithoutDefault(Column("started_at", DateTime, false, None, false, false, false), "`started_at`", "timestamp", "`started_at` timestamp not null");
  }
  lemma TypedBlobQuoted() ensures Wrap("blob") == "`blob`" {}
  lemma TypedBlobDef1() ensures "`blob`" + " " == "`blob` " {}
  lemma TypedBlobDef2() ensures "`blob` " + "bytes(255)" == "`blob` bytes(255)" {}
  lemma TypedBlobDef3() ensures "`blob` bytes(255)" + " not null" == "`blob` bytes(255) not null" {}

  lemma TypedBlobColumn()
    ensures ColumnSql(Column("blob", Binary, false, None, false, false, false)) == Ok("`blob` bytes(255) not null")
  {
    TypedBlobQuoted();
    BinarySpelling();
    TypedBlobDef1();
    TypedBlobDef2();
    TypedBlobDef3();
    Chain3("`blob`", " ", "bytes(255)", " not null", "`blob` ", "`blob` bytes(255)", "`blob` bytes(255) not null");
    WithoutDefault(Column("blob", Binary, false, None, false, false, false), "`blob`", "bytes(255)", "`blob` bytes(255) not null");
  }
  lemma TypedJsonQuoted() ensures Wrap("json") == "`json`" {}
  lemma TypedJsonDef1() ensures "`json`" + " " == "`json` " {}
  lemma TypedJsonDef2() ensures "`json` " + "json" == "`json` json" {}
  lemma TypedJsonDef3() ensures "`json` json" + " not null" == "`json` json not null" {}

  lemma TypedJsonColumn()
    ensures ColumnSql(Column("json", Json, false, None, false, false, false)) == Ok("`json` json not null")
  {
    TypedJsonQuoted();
    JsonSpelling();
    TypedJsonDef1();
    TypedJsonDef2();
    TypedJsonDef3();
    Chain3("`json`", " ", "json", " not null", "`json` ", "`json` json", "`json` json not null");
    WithoutDefault(Column("json", Json, false, None, false, false, false), "`json`", "json", "`json` json not null");
  }
  lemma TypedIntArrayQuoted() ensures Wrap("int_array") == "`int_array`" {}
  lemma TypedIntArrayDef1() ensures "`int_array`" + " " == "`int_array` " {}
  lemma TypedIntArrayDef2() ensures "`int_array` " + "array<int64>" == "`int_array` array<int64>" {}

  lemma TypedIntArrayColumn()
    ensures ColumnSql(Column("int_array", IntegerArray, true, None, false, false, false)) == Ok("`int_array` array<int64>")
  {
    TypedIntArrayQuoted();
    IntegerArraySpelling();
    TypedIntArrayDef1();
    TypedIntArrayDef2();
    Chain2("`int_array`", " ", "array<int64>", "`int_array` ", "`int_array` array<int64>");
    WithoutDefault(Column("int_array", IntegerArray, true, None, false, false, false), "`int_array`", "array<int64>", "`int_array` array<int64>");
  }
  lemma TypedBoolArrayQuoted() ensures Wrap("bool_array") == "`bool_array`" {}
  lemma TypedBoolArrayDef1() ensures "`bool_array`" + " " == "`bool_array` " {}
  lemma TypedBoolArrayDef2() ensures "`bool_array` " + "array<bool>" == "`bool_array` array<bool>" {}

  lemma TypedBoolArrayColumn()
    ensures ColumnSql(Column("bool_array", BooleanArray, true, None, false, false, false)) == Ok("`bool_array` array<bool>")
  {
    TypedBoolArrayQuoted();
    BooleanArraySpelling();
    TypedBoolArrayDef1();
    TypedBoolArrayDef2();
    Chain2("`bool_array`", " ", "array<bool>", "`bool_array` ", "`bool_array` array<bool>");
    WithoutDefault(Column("bool_array", BooleanArray, true, None, false, false, false), "`bool_array`", "array<bool>", "`bool_array` array<bool>");
  }
  lemma TypedFloatArrayQuoted() ensures Wrap("float_array") == "`float_array`" {}
  lemma TypedFloatArrayDef1() ensures "`float_array`" + " " == "`float_array` " {}
  lemma TypedFloatArrayDef2() ensures "`float_array` " + "array<float64>" == "`float_array` array<float64>" {}

  lemma TypedFloatArrayColumn()
    ensures ColumnSql(Column("float_array", FloatArray, true, None, false, false, false)) == Ok("`float_array` array<float64>")
  {
    TypedFloatArrayQuoted();
    FloatArraySpelling();
    TypedFloatArrayDef1();
    TypedFloatArrayDef2();
    Chain2("`float_array`", " ", "array<float64>", "`float_array` ", "`float_array` array<float64>");
    WithoutDefault(Column("float_array", FloatArray, true, None, false, false, false), "`float_array`", "array<float64>", "`float_array` array<float64>");
  }
  lemma TypedDecimalArrayQuoted() ensures Wrap("decimal_array") == "`decimal_array`" {}
  lemma TypedDecimalArrayDef1() ensures "`decimal_array`" + " " == "`decimal_array` " {}
  lemma TypedDecimalArrayDef2() ensures "`decimal_array` " + "array<numeric>" == "`decimal_array` array<numeric>" {}

  lemma TypedDecimalArrayColumn()
    ensures ColumnSql(Column("decimal_array", DecimalArray, true, None, false, false, false)) == Ok("`decimal_array` array<numeric>")
  {
    TypedDecimalArrayQuoted();
    DecimalArraySpelling();
    TypedDecimalArrayDef1();
    TypedDecimalArrayDef2();
    Chain2("`decimal_array`", " ", "array<numeric>", "`decimal_array` ", "`decimal_array` array<numeric>");
    WithoutDefault(Column("decimal_array", DecimalArray, true, None, false, false, false), "`decimal_array`", "array<numeric>", "`decimal_array` array<numeric>");
  }
  lemma TypedStringArrayUndefQuoted() ensures Wrap("string_array_undef") == "`string_array_undef`" {}
  lemma TypedStringArrayUndefDef1() ensures "`string_array_undef`" + " " == "`string_array_undef` " {}
  lemma TypedStringArrayUndefDef2() ensures "`string_array_undef` " + "array<string(255)>" == "`string_array_undef` array<string(255)>" {}

  lemma TypedStringArrayUndefColumn()
    ensures ColumnSql(Column("string_array_undef", StringArray(None), true, None, false, false, false)) == Ok("`string_array_undef` array<string(255)>")
  {
    TypedStringArrayUndefQuoted();
    StringArrayDefaultSpelling();
    TypedStringArrayUndefDef1();
    TypedStringArrayUndefDef2();
    Chain2("`string_array_undef`", " ", "array<string(255)>", "`string_array_undef` ", "`string_array_undef` array<string(255)>");
    WithoutDefault(Column("string_array_undef", StringArray(None), true, None, false, false, false), "`string_array_undef`", "array<string(255)>", "`string_array_undef` array<string(255)>");
  }
  lemma TypedStringArray1Quoted() ensures Wrap("string_array_1") == "`string_array_1`" {}
  lemma TypedStringArray1Def1() ensures "`string_array_1`" + " " == "`string_array_1` " {}
  lemma TypedStringArray1Def2() ensures "`string_array_1` " + "array<string(1)>" == "`string_array_1` array<string(1)>" {}

  lemma TypedStringArray1Column()
    ensures ColumnSql(Column("string_array_1", StringArray(Some(Fixed(1))), true, None, false, false, false)) == Ok("`string_array_1` array<string(1)>")
  {
    TypedStringArray1Quoted();
    StringArray1Spelling();
    TypedStringArray1Def1();
    TypedStringArray1Def2();
    Chain2("`string_array_1`", " ", "array<string(1)>", "`string_array_1` ", "`string_array_1` array<string(1)>");
    WithoutDefault(Column("string_array_1", StringArray(Some(Fixed(1))), true, None, false, false, false), "`string_array_1`", "array<string(1)>", "`string_array_1` array<string(1)>");
  }
  lemma TypedStringArrayMaxQuoted() ensures Wrap("string_array_max") == "`string_array_max`" {}
  lemma TypedStringArrayMaxDef1() ensures "`string_array_max`" + " " == "`string_array_max` " {}
  lemma TypedStringArrayMaxDef2() ensures "`string_array_max` " + "array<string(max)>" == "`string_array_max` array<string(max)>" {}

  lemma TypedStringArrayMaxColumn()
    ensures ColumnSql(Column("string_array_max", StringArray(Some(Max)), true, None, false, false, false)) == Ok("`string_array_max` array<string(max)>")
  {
    TypedStringArrayMaxQuoted();
    StringArrayMaxSpelling();
    TypedStringArrayMaxDef1();
    TypedStringArrayMaxDef2();
    Chain2("`string_array_max`", " ", "array<string(max)>", "`string_array_max` ", "`string_array_max` array<string(max)>");
    WithoutDefault(Column("string_array_max", StringArray(Some(Max)), true, None, false, false, false), "`string_array_max`", "array<string(max)>", "`string_array_max` array<string(max)>");
  }
  lemma TypedTimestampArrayQuoted() ensures Wrap("timestamp_array") == "`timestamp_array`" {}
  lemma TypedTimestampArrayDef1() ensures "`timestamp_array`" + " " == "`timestamp_array` " {}
  lemma TypedTimestampArrayDef2() ensures "`timestamp_array` " + "array<timestamp>" == "`timestamp_array` array<timestamp>" {}

  lemma TypedTimestampArrayColumn()
    ensures ColumnSql(Column("timestamp_array", TimestampArray, true, None, false, false, false)) == Ok("`timestamp_array` array<timestamp>")
  {
    TypedTimestampArrayQuoted();
    TimestampArraySpelling();
    TypedTimestampArrayDef1();
    TypedTimestampArrayDef2();
    Chain2("`timestamp_array`", " ", "array<timestamp>", "`timestamp_array` ", "`timestamp_array` array<timestamp>");
    WithoutDefault(Column("timestamp_array", TimestampArray, true, None, false, false, false), "`timestamp_array`", "array<timestamp>", "`timestamp_array` array<timestamp>");
  }
  lemma TypedCreatedAtQuoted() ensures Wrap("created_at") == "`created_at`" {}
  lemma TypedCreatedAtDef1() ensures "`created_at`" + " " == "`created_at` " {}
  lemma TypedCreatedAtDef2() ensures "`created_at` " + "timestamp" == "`created_at` timestamp" {}

  lemma TypedCreatedAtColumn()
    ensures ColumnSql(Column("created_at", Timestamp, true, None, false, false, false)) == Ok("`created_at` timestamp")
  {
    TypedCreatedAtQuoted();
    TimestampSpelling();
    TypedCreatedAtDef1();
    TypedCreatedAtDef2();
    Chain2("`created_at`", " ", "timestamp", "`created_at` ", "`created_at` timestamp");
    WithoutDefault(Column("created_at", Timestamp, true, None, false, false, false), "`created_at`", "timestamp", "`created_at` timestamp");
  }
  lemma TypedUpdatedAtQuoted() ensures Wrap("updated_at") == "`updated_at`" {}
  lemma TypedUpdatedAtDef1() ensures "`updated_at`" + " " == "`updated_at` " {}
  lemma TypedUpdatedAtDef2() ensures "`updated_at` " + "timestamp" == "`updated_at` timestamp" {}

  lemma TypedUpdatedAtColumn()
    ensures ColumnSql(Column("updated_at", Timestamp, true, None, false, false, false)) == Ok("`updated_at` timestamp")
  {
    TypedUpdatedAtQuoted();
    TimestampSpelling();
    TypedUpdatedAtDef1();
    TypedUpdatedAtDef2();
    Chain2("`updated_at`", " ", "timestamp", "`updated_at` ", "`updated_at` timestamp");
    WithoutDefault(Column("updated_at", Timestamp, true, None, false, false, false), "`updated_at`", "timestamp", "`updated_at` timestamp");
  }
  lemma DefaultedIdQuoted() ensures Wrap("id") == "`id`" {}
  lemma DefaultedIdDef1() ensures "`id`" + " " == "`id` " {}
  lemma DefaultedIdDef2() ensures "`id` " + "string(36)" == "`id` string(36)" {}
  lemma DefaultedIdDef3() ensures "`id` string(36)" + " not null" == "`id` string(36) not null" {}

  lemma DefaultedIdColumn()
    ensures ColumnSql(Column("id", Uuid, false, None, false, false, false)) == Ok("`id` string(36) not null")
  {
    DefaultedIdQuoted();
    UuidSpelling();
    DefaultedIdDef1();
    DefaultedIdDef2();
    DefaultedIdDef3();
    Chain3("`id`", " ", "string(36)", " not null", "`id` ", "`id` string(36)", "`id` string(36) not null");
    WithoutDefault(Column("id", Uuid, false, None, false, false, false), "`id`", "string(36)", "`id` string(36) not null");
  }
  lemma DefaultedNullQuoted() ensures Wrap("null") == "`null`" {}
  lemma DefaultedNullDef1() ensures "`null`" + " " == "`null` " {}
  lemma DefaultedNullDef2() ensures "`null` " + "int64" == "`null` int64" {}

  lemma DefaultedNullColumn()
    ensures ColumnSql(Column("null", Integer, true, None, false, false, false)) == Ok("`null` int64")
  {
    DefaultedNullQuoted();
    IntegerSpelling();
    DefaultedNullDef1();
    DefaultedNullDef2();
    Chain2("`null`", " ", "int64", "`null` ", "`null` int64");
    WithoutDefault(Column("null", Integer, true, None, false, false, false), "`null`", "int64", "`null` int64");
  }
  lemma DefaultedIntQuoted() ensures Wrap("int") == "`int`" {}
  lemma DefaultedIntDef1() ensures "`int`" + " " == "`int` " {}
  lemma DefaultedIntDef2() ensures "`int` " + "int64" == "`int` int64" {}
  lemma DefaultedIntDef3() ensures "`int` int64" + " not null" == "`int` int64 not null" {}
  lemma DefaultedIntDef4() ensures "`int` int64 not null" + " default (" == "`int` int64 not null default (" {}
  lemma DefaultedIntDef5() ensures "`int` int64 not null default (" + "1" == "`int` int64 not null default (1" {}
  lemma DefaultedIntDef6() ensures "`int` int64 not null default (1" + ")" == "`int` int64 not null default (1)" {}

  lemma DefaultedIntLiteral() ensures DefaultLiteral(TypeOf(Integer), VInt(1)) == Ok("1") {
    
  }
  lemma DefaultedIntColumn()
    ensures ColumnSql(Column("int", Integer, false, Some(VInt(1)), false, false, false)) == Ok("`int` int64 not null default (1)")
  {
    DefaultedIntQuoted();
    IntegerSpelling();
    DefaultedIntDef1();
    DefaultedIntDef2();
    DefaultedIntDef3();
    DefaultedIntDef4();
    DefaultedIntDef5();
    DefaultedIntDef6();
    Chain6("`int`", " ", "int64", " not null", " default (", "1", ")", "`int` ", "`int` int64", "`int` int64 not null", "`int` int64 not null default (", "`int` int64 not null default (1", "`int` int64 not null default (1)");
    DefaultedIntLiteral();
    WithDefault(Column("int", Integer, false, Some(VInt(1)), false, false, false), "`int`", "int64", "1", "`int` int64 not null default (1)");
  }
  lemma DefaultedBigintQuoted() ensures Wrap("bigint") == "`bigint`" {}
  lemma DefaultedBigintDef1() ensures "`bigint`" + " " == "`bigint` " {}
  lemma DefaultedBigintDef2() ensures "`bigint` " + "int64" == "`bigint` int64" {}
  lemma DefaultedBigintDef3() ensures "`bigint` int64" + " not null" == "`bigint` int64 not null" {}
  lemma DefaultedBigintDef4() ensures "`bigint` int64 not null" + " default (" == "`bigint` int64 not null default (" {}
  lemma DefaultedBigintDef5() ensures "`bigint` int64 not null default (" + "1" == "`bigint` int64 not null default (1" {}
  lemma DefaultedBigintDef6() ensures "`bigint` int64 not null default (1" + ")" == "`bigint` int64 not null default (1)" {}

  lemma DefaultedBigintLiteral() ensures DefaultLiteral(TypeOf(BigInteger), VInt(1)) == Ok("1") {
    
  }
  lemma DefaultedBigintColumn()
    ensures ColumnSql(Column("bigint", BigInteger, false, Some(VInt(1)), false, false, false)) == Ok("`bigint` int64 not null default (1)")
  {
    DefaultedBigintQuoted();
    BigIntegerSpelling();
    DefaultedBigintDef1();
    DefaultedBigintDef2();
    DefaultedBigintDef3();
    DefaultedBigintDef4();
    DefaultedBigintDef5();
    DefaultedBigintDef6();
    Chain6("`bigint`", " ", "int64", " not null", " default (", "1", ")", "`bigint` ", "`bigint` int64", "`bigint` int64 not null", "`bigint` int64 not null default (", "`bigint` int64 not null default (1", "`bigint` int64 not null default (1)");
    DefaultedBigintLiteral();
    WithDefault(Column("bigint", BigInteger, false, Some(VInt(1)), false, false, false), "`bigint`", "int64", "1", "`bigint` int64 not null default (1)");
  }
  lemma DefaultedFloatQuoted() ensures Wrap("float") == "`float`" {}
  lemma DefaultedFloatDef1() ensures "`float`" + " " == "`float` " {}
  lemma DefaultedFloatDef2() ensures "`float` " + "float64" == "`float` float64" {}
  lemma DefaultedFloatDef3() ensures "`float` float64" + " not null" == "`float` float64 not null" {}
  lemma DefaultedFloatDef4() ensures "`float` float64 not null" + " default (" == "`float` float64 not null default (" {}
  lemma DefaultedFloatDef5() ensures "`float` float64 not null default (" + "0.1" == "`float` float64 not null default (0.1" {}
  lemma DefaultedFloatDef6() ensures "`float` float64 not null default (0.1" + ")" == "`float` float64 not null default (0.1)" {}

  lemma DefaultedFloatLiteral() ensures DefaultLiteral(TypeOf(Float), VDecimal("0.1")) == Ok("0.1") {
    
  }
  lemma DefaultedFloatColumn()
    ensures ColumnSql(Column("float", Float, false, Some(VDecimal("0.1")), false, false, false)) == Ok("`float` float64 not null default (0.1)")
  {
    DefaultedFloatQuoted();
    FloatSpelling();
    DefaultedFloatDef1();
    DefaultedFloatDef2();
    DefaultedFloatDef3();
    DefaultedFloatDef4();
    DefaultedFloatDef5();
    DefaultedFloatDef6();
    Chain6("`float`", " ", "float64", " not null", " default (", "0.1", ")", "`float` ", "`float` float64", "`float` float64 not null", "`float` float64 not null default (", "`float` float64 not null default (0.1", "`float` float64 not null default (0.1)");
    DefaultedFloatLiteral();
    WithDefault(Column("float", Float, false, Some(VDecimal("0.1")), false, false, false), "`float`", "float64", "0.1", "`float` float64 not null default (0.1)");
  }
  lemma DefaultedDoubleQuoted() ensures Wrap("double") == "`double`" {}
  lemma DefaultedDoubleDef1() ensures "`double`" + " " == "`double` " {}
  lemma DefaultedDoubleDef2() ensures "`double` " + "float64" == "`double` float64" {}
  lemma DefaultedDoubleDef3() ensures "`double` float64" + " not null" == "`double` float64 not null" {}
  lemma DefaultedDoubleDef4() ensures "`double` float64 not null" + " default (" == "`double` float64 not null default (" {}
  lemma DefaultedDoubleDef5() ensures "`double` float64 not null default (" + "0.1" == "`double` float64 not null default (0.1" {}
  lemma DefaultedDoubleDef6() ensures "`double` float64 not null default (0.1" + ")" == "`double` float64 not null default (0.1)" {}

  lemma DefaultedDoubleLiteral() ensures DefaultLiteral(TypeOf(Double), VDecimal("0.1")) == Ok("0.1") {
    
  }
  lemma DefaultedDoubleColumn()
    ensures ColumnSql(Column("double", Double, false, Some(VDecimal("0.1")), false, false, false)) == Ok("`double` float64 not null default (0.1)")
  {
    DefaultedDoubleQuoted();
    DoubleSpelling();
    DefaultedDoubleDef1();
    DefaultedDoubleDef2();
    DefaultedDoubleDef3();
    DefaultedDoubleDef4();
    DefaultedDoubleDef5();
    DefaultedDoubleDef6();
    Chain6("`double`", " ", "float64", " not null", " default (", "0.1", ")", "`double` ", "`double` float64", "`double` float64 not null", "`double` float64 not null default (", "`double` float64 not null default (0.1", "`double` float64 not null default (0.1)");
    DefaultedDoubleLiteral();
    WithDefault(Column("double", Double, false, Some(VDecimal("0.1")), false, false, false), "`double`", "float64", "0.1", "`double` float64 not null default (0.1)");
  }
  lemma DefaultedDecimalQuoted() ensures Wrap("decimal") == "`decimal`" {}
  lemma DefaultedDecimalDef1() ensures "`decimal`" + " " == "`decimal` " {}
  lemma DefaultedDecimalDef2() ensures "`decimal` " + "numeric" == "`decimal` numeric" {}
  lemma DefaultedDecimalDef3() ensures "`decimal` numeric" + " not null" == "`decimal` numeric not null" {}
  lemma DefaultedDecimalDef4() ensures "`decimal` numeric not null" + " default (" == "`decimal` numeric not null default (" {}
  lemma DefaultedDecimalDef5() ensures "`decimal` numeric not null default (" + "123.456" == "`decimal` numeric not null default (123.456" {}
  lemma DefaultedDecimalDef6() ensures "`decimal` numeric not null default (123.456" + ")" == "`decimal` numeric not null default (123.456)" {}

  lemma DefaultedDecimalLiteral() ensures DefaultLiteral(TypeOf(Decimal), VDecimal("123.456")) == Ok("123.456") {
    
  }
  lemma DefaultedDecimalColumn()
    ensures ColumnSql(Column("decimal", Decimal, false, Some(VDecimal("123.456")), false, false, false)) == Ok("`decimal` numeric not null default (123.456)")
  {
    DefaultedDecimalQuoted();
    DecimalSpelling();
    DefaultedDecimalDef1();
    DefaultedDecimalDef2();
    DefaultedDecimalDef3();
    DefaultedDecimalDef4();
    DefaultedDecimalDef5();
    DefaultedDecimalDef6();
    Chain6("`decimal`", " ", "numeric", " not null", " default (", "123.456", ")", "`decimal` ", "`decimal` numeric", "`decimal` numeric not null", "`decimal` numeric not null default (", "`decimal` numeric not null default (123.456", "`decimal` numeric not null default (123.456)");
    DefaultedDecimalLiteral();
    WithDefault(Column("decimal", Decimal, false, Some(VDecimal("123.456")), false, false, false), "`decimal`", "numeric", "123.456", "`decimal` numeric not null default (123.456)");
  }
  lemma DefaultedBoolQuoted() ensures Wrap("bool") == "`bool`" {}
  lemma DefaultedBoolDef1() ensures "`bool`" + " " == "`bool` " {}
  lemma DefaultedBoolDef2() ensures "`bool` " + "bool" == "`bool` bool" {}
  lemma DefaultedBoolDef3() ensures "`bool` bool" + " not null" == "`bool` bool not null" {}
  lemma DefaultedBoolDef4() ensures "`bool` bool not null" + " default (" == "`bool` bool not null default (" {}
  lemma DefaultedBoolDef5() ensures "`bool` bool not null default (" + "true" == "`bool` bool not null default (true" {}
  lemma DefaultedBoolDef6() ensures "`bool` bool not null default (true" + ")" == "`bool` bool not null default (true)" {}

  lemma DefaultedBoolLiteral() ensures DefaultLiteral(TypeOf(Boolean), VBool(true)) == Ok("true") {
    
  }
  lemma DefaultedBoolColumn()
    ensures ColumnSql(Column("bool", Boolean, false, Some(VBool(true)), false, false, false)) == Ok("`bool` bool not null default (true)")
  {
    DefaultedBoolQuoted();
    BooleanSpelling();
    DefaultedBoolDef1();
    DefaultedBoolDef2();
    DefaultedBoolDef3();
    DefaultedBoolDef4();
    DefaultedBoolDef5();
    DefaultedBoolDef6();
    Chain6("`bool`", " ", "bool", " not null", " default (", "true", ")", "`bool` ", "`bool` bool", "`bool` bool not null", "`bool` bool not null default (", "`bool` bool not null default (true", "`bool` bool not null default (true)");
    DefaultedBoolLiteral();
    WithDefault(Column("bool", Boolean, false, Some(VBool(true)), false, false, false), "`bool`", "bool", "true", "`bool` bool not null default (true)");
  }
  lemma DefaultedStringQuoted() ensures Wrap("string") == "`string`" {}
  lemma DefaultedStringDef1() ensures "`string`" + " " == "`string` " {}
  lemma DefaultedStringDef2() ensures "`string` " + "string(255)" == "`string` string(255)" {}
  lemma DefaultedStringDef3() ensures "`string` string(255)" + " not null" == "`string` string(255) not null" {}
  lemma DefaultedStringDef4() ensures "`string` string(255) not null" + " default (" == "`string` string(255) not null default (" {}
  lemma DefaultedStringDef5() ensures "`string` string(255) not null default (" + "\"a\"" == "`string` string(255) not null default (\"a\"" {}
  lemma DefaultedStringDef6() ensures "`string` string(255) not null default (\"a\"" + ")" == "`string` string(255) not null default (\"a\")" {}

  lemma DefaultedStringLiteral() ensures DefaultLiteral(TypeOf(StringKind(255)), VString("a")) == Ok("\"a\"") {
    StringA();
  }
  lemma DefaultedStringColumn()
    ensures ColumnSql(Column("string", StringKind(255), false, Some(VString("a")), false, false, false)) == Ok("`string` string(255) not null default (\"a\")")
  {
    DefaultedStringQuoted();
    String255Spelling();
    DefaultedStringDef1();
    DefaultedStringDef2();
    DefaultedStringDef3();
    DefaultedStringDef4();
    DefaultedStringDef5();
    DefaultedStringDef6();
    Chain6("`string`", " ", "string(255)", " not null", " default (", "\"a\"", ")", "`string` ", "`string` string(255)", "`string` string(255) not null", "`string` string(255) not null default (", "`string` string(255) not null default (\"a\"", "`string` string(255) not null default (\"a\")");
    DefaultedStringLiteral();
    WithDefault(Column("string", StringKind(255), false, Some(VString("a")), false, false, false), "`string`", "string(255)", "\"a\"", "`string` string(255) not null default (\"a\")");
  }
  lemma DefaultedStringMaxQuoted() ensures Wrap("string_max") == "`string_max`" {}
  lemma DefaultedStringMaxDef1() ensures "`string_max`" + " " == "`string_max` " {}
  lemma DefaultedStringMaxDef2() ensures "`string_max` " + "string(max)" == "`string_max` string(max)" {}
  lemma DefaultedStringMaxDef3() ensures "`string_max` string(max)" + " not null" == "`string_max` string(max) not null" {}
  lemma DefaultedStringMaxDef4() ensures "`string_max` string(max) not null" + " default (" == "`string_max` string(max) not null default (" {}
  lemma DefaultedStringMaxDef5() ensures "`string_max` string(max) not null default (" + "\"a\"" == "`string_max` string(max) not null default (\"a\"" {}
  lemma DefaultedStringMaxDef6() ensures "`string_max` string(max) not null default (\"a\"" + ")" == "`string_max` string(max) not null default (\"a\")" {}

  lemma DefaultedStringMaxLiteral() ensures DefaultLiteral(TypeOf(Text), VString("a")) == Ok("\"a\"") {
    StringA();
  }
  lemma DefaultedStringMaxColumn()
    ensures ColumnSql(Column("string_max", Text, false, Some(VString("a")), false, false, false)) == Ok("`string_max` string(max) not null default (\"a\")")
  {
    DefaultedStringMaxQuoted();
    TextSpelling();
    DefaultedStringMaxDef1();
    DefaultedStringMaxDef2();
    DefaultedStringMaxDef3();
    DefaultedStringMaxDef4();
    DefaultedStringMaxDef5();
    DefaultedStringMaxDef6();
    Chain6("`string_max`", " ", "string(max)", " not null", " default (", "\"a\"", ")", "`string_max` ", "`string_max` string(max)", "`string_max` string(max) not null", "`string_max` string(max) not null default (", "`string_max` string(max) not null default (\"a\"", "`string_max` string(max) not null default (\"a\")");
    DefaultedStringMaxLiteral();
    WithDefault(Column("string_max", Text, false, Some(VString("a")), false, false, false), "`string_max`", "string(max)", "\"a\"", "`string_max` string(max) not null default (\"a\")");
  }
  lemma DefaultedCharQuoted() ensures Wrap("char") == "`char`" {}
  lemma DefaultedCharDef1() ensures "`char`" + " " == "`char` " {}
  lemma DefaultedCharDef2() ensures "`char` " + "string(255)" == "`char` string(255)" {}
  lemma DefaultedCharDef3() ensures "`char` string(255)" + " not null" == "`char` string(255) not null" {}
  lemma DefaultedCharDef4() ensures "`char` string(255) not null" + " default (" == "`char` string(255) not null default (" {}
  lemma DefaultedCharDef5() ensures "`char` string(255) not null default (" + "\"a\"" == "`char` string(255) not null default (\"a\"" {}
  lemma DefaultedCharDef6() ensures "`char` string(255) not null default (\"a\"" + ")" == "`char` string(255) not null default (\"a\")" {}

  lemma DefaultedCharLiteral() ensures DefaultLiteral(TypeOf(CharKind(255)), VString("a")) == Ok("\"a\"") {
    StringA();
  }
  lemma DefaultedCharColumn()
    ensures ColumnSql(Column("char", CharKind(255), false, Some(VString("a")), false, false, false)) == Ok("`char` string(255) not null default (\"a\")")
  {
    DefaultedCharQuoted();
    Char255Spelling();
    DefaultedCharDef1();
    DefaultedCharDef2();
    DefaultedCharDef3();
    DefaultedCharDef4();
    DefaultedCharDef5();
    DefaultedCharDef6();
    Chain6("`char`", " ", "string(255)", " not null", " default (", "\"a\"", ")", "`char` ", "`char` string(255)", "`char` string(255) not null", "`char` string(255) not null default (", "`char` string(255) not null default (\"a\"", "`char` string(255) not null default (\"a\")");
    DefaultedCharLiteral();
    WithDefault(Column("char", CharKind(255), false, Some(VString("a")), false, false, false), "`char`", "string(255)", "\"a\"", "`char` string(255) not null default (\"a\")");
  }
  lemma DefaultedMediumTextQuoted() ensures Wrap("medium_text") == "`medium_text`" {}
  lemma DefaultedMediumTextDef1() ensures "`medium_text`" + " " == "`medium_text` " {}
  lemma DefaultedMediumTextDef2() ensures "`medium_text` " + "string(max)" == "`medium_text` string(max)" {}
  lemma DefaultedMediumTextDef3() ensures "`medium_text` string(max)" + " not null" == "`medium_text` string(max) not null" {}
  lemma DefaultedMediumTextDef4() ensures "`medium_text` string(max) not null" + " default (" == "`medium_text` string(max) not null default (" {}
  lemma DefaultedMediumTextDef5() ensures "`medium_text` string(max) not null default (" + "\"a\"" == "`medium_text` string(max) not null default (\"a\"" {}
  lemma DefaultedMediumTextDef6() ensures "`medium_text` string(max) not null default (\"a\"" + ")" == "`medium_text` string(max) not null default (\"a\")" {}

  lemma DefaultedMediumTextLiteral() ensures DefaultLiteral(TypeOf(MediumText), VString("a")) == Ok("\"a\"") {
    StringA();
  }
  lemma DefaultedMediumTextColumn()
    ensures ColumnSql(Column("medium_text", MediumText, false, Some(VString("a")), false, false, false)) == Ok("`medium_text` string(max) not null default (\"a\")")
  {
    DefaultedMediumTextQuoted();
    MediumTextSpelling();
    DefaultedMediumTextDef1();
    DefaultedMediumTextDef2();
    DefaultedMediumTextDef3();
    DefaultedMediumTextDef4();
    DefaultedMediumTextDef5();
    DefaultedMediumTextDef6();
    Chain6("`medium_text`", " ", "string(max)", " not null", " default (", "\"a\"", ")", "`medium_text` ", "`medium_text` string(max)", "`medium_text` string(max) not null", "`medium_text` string(max) not null default (", "`medium_text` string(max) not null default (\"a\"", "`medium_text` string(max) not null default (\"a\")");
    DefaultedMediumTextLiteral();
    WithDefault(Column("medium_text", MediumText, false, Some(VString("a")), false, false, false), "`medium_text`", "string(max)", "\"a\"", "`medium_text` string(max) not null default (\"a\")");
  }
  lemma DefaultedLongTextQuoted() ensures Wrap("long_text") == "`long_text`" {}
  lemma DefaultedLongTextDef1() ensures "`long_text`" + " " == "`long_text` " {}
  lemma DefaultedLongTextDef2() ensures "`long_text` " + "string(max)" == "`long_text` string(max)" {}
  lemma DefaultedLongTextDef3() ensures "`long_text` string(max)" + " not null" == "`long_text` string(max) not null" {}
  lemma DefaultedLongTextDef4() ensures "`long_text` string(max) not null" + " default (" == "`long_text` string(max) not null default (" {}
  lemma DefaultedLongTextDef5() ensures "`long_text` string(max) not null default (" + "\"a\"" == "`long_text` string(max) not null default (\"a\"" {}
  lemma DefaultedLongTextDef6() ensures "`long_text` string(max) not null default (\"a\"" + ")" == "`long_text` string(max) not null default (\"a\")" {}

  lemma DefaultedLongTextLiteral() ensures DefaultLiteral(TypeOf(LongText), VString("a")) == Ok("\"a\"") {
    StringA();
  }
  lemma DefaultedLongTextColumn()
    ensures ColumnSql(Column("long_text", LongText, false, Some(VString("a")), false, false, false)) == Ok("`long_text` string(max) not null default (\"a\")")
  {
    DefaultedLongTextQuoted();
    LongTextSpelling();
    DefaultedLongTextDef1();
    DefaultedLongTextDef2();
    DefaultedLongTextDef3();
    DefaultedLongTextDef4();
    DefaultedLongTextDef5();
    DefaultedLongTextDef6();
    Chain6("`long_text`", " ", "string(max)", " not null", " default (", "\"a\"", ")", "`long_text` ", "`long_text` string(max)", "`long_text` string(max) not null", "`long_text` string(max) not null default (", "`long_text` string(max) not null default (\"a\"", "`long_text` string(max) not null default (\"a\")");
    DefaultedLongTextLiteral();
    WithDefault(Column("long_text", LongText, false, Some(VString("a")), false, false, false), "`long_text`", "string(max)", "\"a\"", "`long_text` string(max) not null default (\"a\")");
  }
  lemma DefaultedRawQuoted() ensures Wrap("raw") == "`raw`" {}
  lemma DefaultedRawDef1() ensures "`raw`" + " " == "`raw` " {}
  lemma DefaultedRawDef2() ensures "`raw` " + "float64" == "`raw` float64" {}
  lemma DefaultedRawDef3() ensures "`raw` float64" + " not null" == "`raw` float64 not null" {}
  lemma DefaultedRawDef4() ensures "`raw` float64 not null" + " default (" == "`raw` float64 not null default (" {}
  lemma DefaultedRawDef5() ensures "`raw` float64 not null default (" + "1.1" == "`raw` float64 not null default (1.1" {}
  lemma DefaultedRawDef6() ensures "`raw` float64 not null default (1.1" + ")" == "`raw` float64 not null default (1.1)" {}

  lemma DefaultedRawLiteral() ensures DefaultLiteral(TypeOf(Float), VRaw("1.1")) == Ok("1.1") {
    
  }
  lemma DefaultedRawColumn()
    ensures ColumnSql(Column("raw", Float, false, Some(VRaw("1.1")), false, false, false)) == Ok("`raw` float64 not null default (1.1)")
  {
    DefaultedRawQuoted();
    FloatSpelling();
    DefaultedRawDef1();
    DefaultedRawDef2();
    DefaultedRawDef3();
    DefaultedRawDef4();
    DefaultedRawDef5();
    DefaultedRawDef6();
    Chain6("`raw`", " ", "float64", " not null", " default (", "1.1", ")", "`raw` ", "`raw` float64", "`raw` float64 not null", "`raw` float64 not null default (", "`raw` float64 not null default (1.1", "`raw` float64 not null default (1.1)");
    DefaultedRawLiteral();
    WithDefault(Column("raw", Float, false, Some(VRaw("1.1")), false, false, false), "`raw`", "float64", "1.1", "`raw` float64 not null default (1.1)");
  }
  lemma DefaultedJsonQuoted() ensures Wrap("json") == "`json`" {}
  lemma DefaultedJsonDef1() ensures "`json`" + " " == "`json` " {}
  lemma DefaultedJsonDef2() ensures "`json` " + "json" == "`json` json" {}
  lemma DefaultedJsonDef3() ensures "`json` json" + " not null" == "`json` json not null" {}
  lemma DefaultedJsonDef4() ensures "`json` json not null" + " default (" == "`json` json not null default (" {}
  lemma DefaultedJsonDef5() ensures "`json` json not null default (" + "json \"[1,2,3]\"" == "`json` json not null default (json \"[1,2,3]\"" {}
  lemma DefaultedJsonDef6() ensures "`json` json not null default (json \"[1,2,3]\"" + ")" == "`json` json not null default (json \"[1,2,3]\")" {}

  lemma DefaultedJsonLiteral() ensures DefaultLiteral(TypeOf(Json), VRaw("json \"[1,2,3]\"")) == Ok("json \"[1,2,3]\"") {
    
  }
  lemma DefaultedJsonColumn()
    ensures ColumnSql(Column("json", Json, false, Some(VRaw("json \"[1,2,3]\"")), false, false, false)) == Ok("`json` json not null default (json \"[1,2,3]\")")
  {
    DefaultedJsonQuoted();
    JsonSpelling();
    DefaultedJsonDef1();
    DefaultedJsonDef2();
    DefaultedJsonDef3();
    DefaultedJsonDef4();
    DefaultedJsonDef5();
    DefaultedJsonDef6();
    Chain6("`json`", " ", "json", " not null", " default (", "json \"[1,2,3]\"", ")", "`json` ", "`json` json", "`json` json not null", "`json` json not null default (", "`json` json not null default (json \"[1,2,3]\"", "`json` json not null default (json \"[1,2,3]\")");
    DefaultedJsonLiteral();
    WithDefault(Column("json", Json, false, Some(VRaw("json \"[1,2,3]\"")), false, false, false), "`json`", "json", "json \"[1,2,3]\"", "`json` json not null default (json \"[1,2,3]\")");
  }
  lemma DefaultedDateAsStringQuoted() ensures Wrap("date_as_string") == "`date_as_string`" {}
  lemma DefaultedDateAsStringDef1() ensures "`date_as_string`" + " " == "`date_as_string` " {}
  lemma DefaultedDateAsStringDef2() ensures "`date_as_string` " + "date" == "`date_as_string` date" {}
  lemma DefaultedDateAsStringDef3() ensures "`date_as_string` date" + " not null" == "`date_as_string` date not null" {}
  lemma DefaultedDateAsStringDef4() ensures "`date_as_string` date not null" + " default (" == "`date_as_string` date not null default (" {}
  lemma DefaultedDateAsStringDef5() ensures "`date_as_string` date not null default (" + "DATE \"2022-01-01\"" == "`date_as_string` date not null default (DATE \"2022-01-01\"" {}
  lemma DefaultedDateAsStringDef6() ensures "`date_as_string` date not null default (DATE \"2022-01-01\"" + ")" == "`date_as_string` date not null default (DATE \"2022-01-01\")" {}

  lemma DefaultedDateAsStringLiteral() ensures DefaultLiteral(TypeOf(Date), VInstant(NewYear2022)) == Ok("DATE \"2022-01-01\"") {
    NewYearDate();
  }
  lemma DefaultedDateAsStringColumn()
    ensures ColumnSql(Column("date_as_string", Date, false, Some(VInstant(NewYear2022)), false, false, false)) == Ok("`date_as_string` date not null default (DATE \"2022-01-01\")")
  {
    DefaultedDateAsStringQuoted();
    DateSpelling();
    DefaultedDateAsStringDef1();
    DefaultedDateAsStringDef2();
    DefaultedDateAsStringDef3();
    DefaultedDateAsStringDef4();
    DefaultedDateAsStringDef5();
    DefaultedDateAsStringDef6();
    Chain6("`date_as_string`", " ", "date", " not null", " default (", "DATE \"2022-01-01\"", ")", "`date_as_string` ", "`date_as_string` date", "`date_as_string` date not null", "`date_as_string` date not null default (", "`date_as_string` date not null default (DATE \"2022-01-01\"", "`date_as_string` date not null default (DATE \"2022-01-01\")");
    DefaultedDateAsStringLiteral();
    WithDefault(Column("date_as_string", Date, false, Some(VInstant(NewYear2022)), false, false, false), "`date_as_string`", "date", "DATE \"2022-01-01\"", "`date_as_string` date not null default (DATE \"2022-01-01\")");
  }
  lemma DefaultedDateAsCarbonQuoted() ensures Wrap("date_as_carbon") == "`date_as_carbon`" {}
  lemma DefaultedDateAsCarbonDef1() ensures "`date_as_carbon`" + " " == "`date_as_carbon` " {}
  lemma DefaultedDateAsCarbonDef2() ensures "`date_as_carbon` " + "date" == "`date_as_carbon` date" {}
  lemma DefaultedDateAsCarbonDef3() ensures "`date_as_carbon` date" + " not null" == "`date_as_carbon` date not null" {}
  lemma DefaultedDateAsCarbonDef4() ensures "`date_as_carbon` date not null" + " default (" == "`date_as_carbon` date not null default (" {}
  lemma DefaultedDateAsCarbonDef5() ensures "`date_as_carbon` date not null default (" + "DATE \"2022-01-01\"" == "`date_as_carbon` date not null default (DATE \"2022-01-01\"" {}
  lemma DefaultedDateAsCarbonDef6() ensures "`date_as_carbon` date not null default (DATE \"2022-01-01\"" + ")" == "`date_as_carbon` date not null default (DATE \"2022-01-01\")" {}

  lemma DefaultedDateAsCarbonLiteral() ensures DefaultLiteral(TypeOf(Date), VInstant(NewYear2022)) == Ok("DATE \"2022-01-01\"") {
    NewYearDate();
  }
  lemma DefaultedDateAsCarbonColumn()
    ensures ColumnSql(Column("date_as_carbon", Date, false, Some(VInstant(NewYear2022)), false, false, false)) == Ok("`date_as_carbon` date not null default (DATE \"2022-01-01\")")
  {
    DefaultedDateAsCarbonQuoted();
    DateSpelling();
    DefaultedDateAsCarbonDef1();
    DefaultedDateAsCarbonDef2();
    DefaultedDateAsCarbonDef3();
    DefaultedDateAsCarbonDef4();
    DefaultedDateAsCarbonDef5();
    DefaultedDateAsCarbonDef6();
    Chain6("`date_as_carbon`", " ", "date", " not null", " default (", "DATE \"2022-01-01\"", ")", "`date_as_carbon` ", "`date_as_carbon` date", "`date_as_carbon` date not null", "`date_as_carbon` date not null default (", "`date_as_carbon` date not null default (DATE \"2022-01-01\"", "`date_as_carbon` date not null default (DATE \"2022-01-01\")");
    DefaultedDateAsCarbonLiteral();
    WithDefault(Column("date_as_carbon", Date, false, Some(VInstant(NewYear2022)), false, false, false), "`date_as_carbon`", "date", "DATE \"2022-01-01\"", "`date_as_carbon` date not null default (DATE \"2022-01-01\")");
  }
  lemma DefaultedTimeAsStringQuoted() ensures Wrap("time_as_string") == "`time_as_string`" {}
  lemma DefaultedTimeAsStringDef1() ensures "`time_as_string`" + " " == "`time_as_string` " {}
  lemma DefaultedTimeAsStringDef2() ensures "`time_as_string` " + "timestamp" == "`time_as_string` timestamp" {}
  lemma DefaultedTimeAsStringDef3() ensures "`time_as_string` timestamp" + " not null" == "`time_as_string` timestamp not null" {}
  lemma DefaultedTimeAsStringDef4() ensures "`time_as_string` timestamp not null" + " default (" == "`time_as_string` timestamp not null default (" {}
  lemma DefaultedTimeAsStringDef5() ensures "`time_as_string` timestamp not null default (" + "TIMESTAMP \"2022-01-01T" == "`time_as_string` timestamp not null default (TIMESTAMP \"2022-01-01T" {}
  lemma DefaultedTimeAsStringDef6() ensures "`time_as_string` timestamp not null default (TIMESTAMP \"2022-01-01T" + "00:00:00.000000+00:00\"" == "`time_as_string` timestamp not null default (TIMESTAMP \"2022-01-01T00:00:00.000000+00:00\"" {}
  lemma DefaultedTimeAsStringDef7() ensures "`time_as_string` timestamp not null default (TIMESTAMP \"2022-01-01T00:00:00.000000+00:00\"" + ")" == "`time_as_string` timestamp not null default (TIMESTAMP \"2022-01-01T00:00:00.000000+00:00\")" {}
  lemma DefaultedTimeAsStringDefHalf0() ensures "TIMESTAMP \"2022-01-01T" + "00:00:00.000000+00:00\"" == "TIMESTAMP \"2022-01-01T00:00:00.000000+00:00\"" {}

  lemma DefaultedTimeAsStringLiteral() ensures DefaultLiteral(TypeOf(DateTime), VInstant(NewYear2022)) == Ok("TIMESTAMP \"2022-01-01T00:00:00.000000+00:00\"") {
    NewYearTimestamp();
  }
  lemma DefaultedTimeAsStringColumn()
    ensures ColumnSql(Column("time_as_string", DateTime, false, Some(VInstant(NewYear2022)), false, false, false)) == Ok("`time_as_string` timestamp not null default (TIMESTAMP \"2022-01-01T00:00:00.000000+00:00\")")
  {
    DefaultedTimeAsStringQuoted();
    DateTimeSpelling();
    DefaultedTimeAsStringDef1();
    DefaultedTimeAsStringDef2();
    DefaultedTimeAsStringDef3();
    DefaultedTimeAsStringDef4();
    DefaultedTimeAsStringDef5();
    DefaultedTimeAsStringDef6();
    DefaultedTimeAsStringDef7();
    Chain7("`time_as_string`", " ", "timestamp", " not null", " default (", "TIMESTAMP \"2022-01-01T", "00:00:00.000000+00:00\"", ")", "`time_as_string` ", "`time_as_string` timestamp", "`time_as_string` timestamp not null", "`time_as_string` timestamp not null default (", "`time_as_string` timestamp not null default (TIMESTAMP \"2022-01-01T", "`time_as_string` timestamp not null default (TIMESTAMP \"2022-01-01T00:00:00.000000+00:00\"", "`time_as_string` timestamp not null default (TIMESTAMP \"2022-01-01T00:00:00.000000+00:00\")");
    DefaultedTimeAsStringDefHalf0();
    Assoc("`time_as_string` timestamp not null default (", "TIMESTAMP \"2022-01-01T", "00:00:00.000000+00:00\"");
    DefaultedTimeAsStringLiteral();
    WithDefault(Column("time_as_string", DateTime, false, Some(VInstant(NewYear2022)), false, false, false), "`time_as_string`", "timestamp", "TIMESTAMP \"2022-01-01T00:00:00.000000+00:00\"", "`time_as_string` timestamp not null default (TIMESTAMP \"2022-01-01T00:00:00.000000+00:00\")");
  }
  lemma DefaultedTimeAsCarbonQuoted() ensures Wrap("time_as_carbon") == "`time_as_carbon`" {}
  lemma DefaultedTimeAsCarbonDef1() ensures "`time_as_carbon`" + " " == "`time_as_carbon` " {}
  lemma DefaultedTimeAsCarbonDef2() ensures "`time_as_carbon` " + "timestamp" == "`time_as_carbon` timestamp" {}
  lemma DefaultedTimeAsCarbonDef3() ensures "`time_as_carbon` timestamp" + " not null" == "`time_as_carbon` timestamp not null" {}
  lemma DefaultedTimeAsCarbonDef4() ensures "`time_as_carbon` timestamp not null" + " default (" == "`time_as_carbon` timestamp not null default (" {}
  lemma DefaultedTimeAsCarbonDef5() ensures "`time_as_carbon` timestamp not null default (" + "TIMESTAMP \"2022-01-01T" == "`time_as_carbon` timestamp not null default (TIMESTAMP \"2022-01-01T" {}
  lemma DefaultedTimeAsCarbonDef6() ensures "`time_as_carbon` timestamp not null default (TIMESTAMP \"2022-01-01T" + "00:00:00.000000+00:00\"" == "`time_as_carbon` timestamp not null default (TIMESTAMP \"2022-01-01T00:00:00.000000+00:00\"" {}
  lemma DefaultedTimeAsCarbonDef7() ensures "`time_as_carbon` timestamp not null default (TIMESTAMP \"2022-01-01T00:00:00.000000+00:00\"" + ")" == "`time_as_carbon` timestamp not null default (TIMESTAMP \"2022-01-01T00:00:00.000000+00:00\")" {}
  lemma DefaultedTimeAsCarbonDefHalf0() ensures "TIMESTAMP \"2022-01-01T" + "00:00:00.000000+00:00\"" == "TIMESTAMP \"2022-01-01T00:00:00.000000+00:00\"" {}

  lemma DefaultedTimeAsCarbonLiteral() ensures DefaultLiteral(TypeOf(DateTime), VInstant(NewYear2022)) == Ok("TIMESTAMP \"2022-01-01T00:00:00.000000+00:00\"") {
    NewYearTimestamp();
  }
  lemma DefaultedTimeAsCarbonColumn()
    ensures ColumnSql(Column("time_as_carbon", DateTime, false, Some(VInstant(NewYear2022)), false, false, false)) == Ok("`time_as_carbon` timestamp not null default (TIMESTAMP \"2022-01-01T00:00:00.000000+00:00\")")
  {
    DefaultedTimeAsCarbonQuoted();
    DateTimeSpelling();
    DefaultedTimeAsCarbonDef1();
    DefaultedTimeAsCarbonDef2();
    DefaultedTimeAsCarbonDef3();
    DefaultedTimeAsCarbonDef4();
    DefaultedTimeAsCarbonDef5();
    DefaultedTimeAsCarbonDef6();
    DefaultedTimeAsCarbonDef7();
    Chain7("`time_as_carbon`", " ", "timestamp", " not null", " default (", "TIMESTAMP \"2022-01-01T", "00:00:00.000000+00:00\"", ")", "`time_as_carbon` ", "`time_as_carbon` timestamp", "`time_as_carbon` timestamp not null", "`time_as_carbon` timestamp not null default (", "`time_as_carbon` timestamp not null default (TIMESTAMP \"2022-01-01T", "`time_as_carbon` timestamp not null default (TIMESTAMP \"2022-01-01T00:00:00.000000+00:00\"", "`time_as_carbon` timestamp not null default (TIMESTAMP \"2022-01-01T00:00:00.000000+00:00\")");
    DefaultedTimeAsCarbonDefHalf0();
    Assoc("`time_as_carbon` timestamp not null default (", "TIMESTAMP \"2022-01-01T", "00:00:00.000000+00:00\"");
    DefaultedTimeAsCarbonLiteral();
    WithDefault(Column("time_as_carbon", DateTime, false, Some(VInstant(NewYear2022)), false, false, false), "`time_as_carbon`", "timestamp", "TIMESTAMP \"2022-01-01T00:00:00.000000+00:00\"", "`time_as_carbon` timestamp not null default (TIMESTAMP \"2022-01-01T00:00:00.000000+00:00\")");
  }
  lemma DefaultedCurrentTimeQuoted() ensures Wrap("current_time") == "`current_time`" {}
  lemma DefaultedCurrentTimeDef1() ensures "`current_time`" + " " == "`current_time` " {}
  lemma DefaultedCurrentTimeDef2() ensures "`current_time` " + "timestamp" == "`current_time` timestamp" {}
  lemma DefaultedCurrentTimeDef3() ensures "`current_time` timestamp" + " not null" == "`current_time` timestamp not null" {}
  lemma DefaultedCurrentTimeDef4() ensures "`current_time` timestamp not null" + " default (CURRENT_TIMESTAMP())" == "`current_time` timestamp not null default (CURRENT_TIMESTAMP())" {}

  lemma DefaultedCurrentTimeColumn()
    ensures ColumnSql(Column("current_time", DateTime, false, None, true, false, false)) == Ok("`current_time` timestamp not null default (CURRENT_TIMESTAMP())")
  {
    DefaultedCurrentTimeQuoted();
    DateTimeSpelling();
    DefaultedCurrentTimeDef1();
    DefaultedCurrentTimeDef2();
    DefaultedCurrentTimeDef3();
    DefaultedCurrentTimeDef4();
    Chain4("`current_time`", " ", "timestamp", " not null", " default (CURRENT_TIMESTAMP())", "`current_time` ", "`current_time` timestamp", "`current_time` timestamp not null", "`current_time` timestamp not null default (CURRENT_TIMESTAMP())");
    UsingCurrent(Column("current_time", DateTime, false, None, true, false, false), "`current_time`", "timestamp", "`current_time` timestamp not null default (CURRENT_TIMESTAMP())");
  }
  lemma DefaultedCurrentTimeAsTsQuoted() ensures Wrap("current_time_as_ts") == "`current_time_as_ts`" {}
  lemma DefaultedCurrentTimeAsTsDef1() ensures "`current_time_as_ts`" + " " == "`current_time_as_ts` " {}
  lemma DefaultedCurrentTimeAsTsDef2() ensures "`current_time_as_ts` " + "timestamp" == "`current_time_as_ts` timestamp" {}
  lemma DefaultedCurrentTimeAsTsDef3() ensures "`current_time_as_ts` timestamp" + " not null" == "`current_time_as_ts` timestamp not null" {}
  lemma DefaultedCurrentTimeAsTsDef4() ensures "`current_time_as_ts` timestamp not null" + " default (CURRENT_TIMESTAMP())" == "`current_time_as_ts` timestamp not null default (CURRENT_TIMESTAMP())" {}

  lemma DefaultedCurrentTimeAsTsColumn()
    ensures ColumnSql(Column("current_time_as_ts", Timestamp, false, None, true, false, false)) == Ok("`current_time_as_ts` timestamp not null default (CURRENT_TIMESTAMP())")
  {
    DefaultedCurrentTimeAsTsQuoted();
    TimestampSpelling();
    DefaultedCurrentTimeAsTsDef1();
    DefaultedCurrentTimeAsTsDef2();
    DefaultedCurrentTimeAsTsDef3();
    DefaultedCurrentTimeAsTsDef4();
    Chain4("`current_time_as_ts`", " ", "timestamp", " not null", " default (CURRENT_TIMESTAMP())", "`current_time_as_ts` ", "`current_time_as_ts` timestamp", "`current_time_as_ts` timestamp not null", "`current_time_as_ts` timestamp not null default (CURRENT_TIMESTAMP())");
    UsingCurrent(Column("current_time_as_ts", Timestamp, false, None, true, false, false), "`current_time_as_ts`", "timestamp", "`current_time_as_ts` timestamp not null default (CURRENT_TIMESTAMP())");
  }
  lemma DefaultedIntArrayElement1() ensures ScalarDefault(Int64Type, VInt(1)) == Ok("1") {  }
  lemma DefaultedIntArrayElement2() ensures ScalarDefault(Int64Type, VInt(2)) == Ok("2") {  }
  lemma DefaultedIntArrayInner() ensures "1" + ", " + "2" == "1, 2" {}
  lemma DefaultedIntArrayBracket1() ensures "[" + "1, 2" == "[1, 2" {}
  lemma DefaultedIntArrayBracket2() ensures "[1, 2" + "]" == "[1, 2]" {}
  lemma DefaultedIntArrayQuoted() ensures Wrap("int_array") == "`int_array`" {}
  lemma DefaultedIntArrayDef1() ensures "`int_array`" + " " == "`int_array` " {}
  lemma DefaultedIntArrayDef2() ensures "`int_array` " + "array<int64>" == "`int_array` array<int64>" {}
  lemma DefaultedIntArrayDef3() ensures "`int_array` array<int64>" + " not null" == "`int_array` array<int64> not null" {}
  lemma DefaultedIntArrayDef4() ensures "`int_array` array<int64> not null" + " default (" == "`int_array` array<int64> not null default (" {}
  lemma DefaultedIntArrayDef5() ensures "`int_array` array<int64> not null default (" + "[1, 2]" == "`int_array` array<int64> not null default ([1, 2]" {}
  lemma DefaultedIntArrayDef6() ensures "`int_array` array<int64> not null default ([1, 2]" + ")" == "`int_array` array<int64> not null default ([1, 2])" {}

  lemma DefaultedIntArrayLiteral() ensures DefaultLiteral(TypeOf(IntegerArray), VArray([VInt(1), VInt(2)])) == Ok("[1, 2]") {
    DefaultedIntArrayElement1();
    DefaultedIntArrayElement2();
    TwoElementDefaults(Int64Type, VInt(1), VInt(2), "1", "2");
    TwoJoined("1", "2");
    DefaultedIntArrayInner();
    DefaultedIntArrayBracket1();
    DefaultedIntArrayBracket2();
    Chain2("[", "1, 2", "]", "[1, 2", "[1, 2]");
    IntegerArrayType();
    ArrayDefault(IntegerArray, Int64Type, [VInt(1), VInt(2)], ["1", "2"], "[1, 2]");
  }
  lemma DefaultedIntArrayColumn()
    ensures ColumnSql(Column("int_array", IntegerArray, false, Some(VArray([VInt(1), VInt(2)])), false, false, false)) == Ok("`int_array` array<int64> not null default ([1, 2])")
  {
    DefaultedIntArrayQuoted();
    IntegerArraySpelling();
    DefaultedIntArrayDef1();
    DefaultedIntArrayDef2();
    DefaultedIntArrayDef3();
    DefaultedIntArrayDef4();
    DefaultedIntArrayDef5();
    DefaultedIntArrayDef6();
    Chain6("`int_array`", " ", "array<int64>", " not null", " default (", "[1, 2]", ")", "`int_array` ", "`int_array` array<int64>", "`int_array` array<int64> not null", "`int_array` array<int64> not null default (", "`int_array` array<int64> not null default ([1, 2]", "`int_array` array<int64> not null default ([1, 2])");
    DefaultedIntArrayLiteral();
    WithDefault(Column("int_array", IntegerArray, false, Some(VArray([VInt(1), VInt(2)])), false, false, false), "`int_array`", "array<int64>", "[1, 2]", "`int_array` array<int64> not null default ([1, 2])");
  }
  lemma DefaultedBoolArrayElement1() ensures ScalarDefault(BoolType, VBool(false)) == Ok("false") {  }
  lemma DefaultedBoolArrayElement2() ensures ScalarDefault(BoolType, VBool(true)) == Ok("true") {  }
  lemma DefaultedBoolArrayInner() ensures "false" + ", " + "true" == "false, true" {}
  lemma DefaultedBoolArrayBracket1() ensures "[" + "false, true" == "[false, true" {}
  lemma DefaultedBoolArrayBracket2() ensures "[false, true" + "]" == "[false, true]" {}
  lemma DefaultedBoolArrayQuoted() ensures Wrap("bool_array") == "`bool_array`" {}
  lemma DefaultedBoolArrayDef1() ensures "`bool_array`" + " " == "`bool_array` " {}
  lemma DefaultedBoolArrayDef2() ensures "`bool_array` " + "array<bool>" == "`bool_array` array<bool>" {}
  lemma DefaultedBoolArrayDef3() ensures "`bool_array` array<bool>" + " not null" == "`bool_array` array<bool> not null" {}
  lemma DefaultedBoolArrayDef4() ensures "`bool_array` array<bool> not null" + " default (" == "`bool_array` array<bool> not null default (" {}
  lemma DefaultedBoolArrayDef5() ensures "`bool_array` array<bool> not null default (" + "[false, true]" == "`bool_array` array<bool> not null default ([false, true]" {}
  lemma DefaultedBoolArrayDef6() ensures "`bool_array` array<bool> not null default ([false, true]" + ")" == "`bool_array` array<bool> not null default ([false, true])" {}

  lemma DefaultedBoolArrayLiteral() ensures DefaultLiteral(TypeOf(BooleanArray), VArray([VBool(false), VBool(true)])) == Ok("[false, true]") {
    DefaultedBoolArrayElement1();
    DefaultedBoolArrayElement2();
    TwoElementDefaults(BoolType, VBool(false), VBool(true), "false", "true");
    TwoJoined("false", "true");
    DefaultedBoolArrayInner();
    DefaultedBoolArrayBracket1();
    DefaultedBoolArrayBracket2();
    Chain2("[", "false, true", "]", "[false, true", "[false, true]");
    BooleanArrayType();
    ArrayDefault(BooleanArray, BoolType, [VBool(false), VBool(true)], ["false", "true"], "[false, true]");
  }
  lemma DefaultedBoolArrayColumn()
    ensures ColumnSql(Column("bool_array", BooleanArray, false, Some(VArray([VBool(false), VBool(true)])), false, false, false)) == Ok("`bool_array` array<bool> not null default ([false, true])")
  {
    DefaultedBoolArrayQuoted();
    BooleanArraySpelling();
    DefaultedBoolArrayDef1();
    DefaultedBoolArrayDef2();
    DefaultedBoolArrayDef3();
    DefaultedBoolArrayDef4();
    DefaultedBoolArrayDef5();
    DefaultedBoolArrayDef6();
    Chain6("`bool_array`", " ", "array<bool>", " not null", " default (", "[false, true]", ")", "`bool_array` ", "`bool_array` array<bool>", "`bool_array` array<bool> not null", "`bool_array` array<bool> not null default (", "`bool_array` array<bool> not null default ([false, true]", "`bool_array` array<bool> not null default ([false, true])");
    DefaultedBoolArrayLiteral();
    WithDefault(Column("bool_array", BooleanArray, false, Some(VArray([VBool(false), VBool(true)])), false, false, false), "`bool_array`", "array<bool>", "[false, true]", "`bool_array` array<bool> not null default ([false, true])");
  }
  lemma DefaultedFloatArrayElement1() ensures ScalarDefault(Float64Type, VDecimal("2.2")) == Ok("2.2") {  }
  lemma DefaultedFloatArrayElement2() ensures ScalarDefault(Float64Type, VDecimal("3.3")) == Ok("3.3") {  }
  lemma DefaultedFloatArrayInner() ensures "2.2" + ", " + "3.3" == "2.2, 3.3" {}
  lemma DefaultedFloatArrayBracket1() ensures "[" + "2.2, 3.3" == "[2.2, 3.3" {}
  lemma DefaultedFloatArrayBracket2() ensures "[2.2, 3.3" + "]" == "[2.2, 3.3]" {}
  lemma DefaultedFloatArrayQuoted() ensures Wrap("float_array") == "`float_array`" {}
  lemma DefaultedFloatArrayDef1() ensures "`float_array`" + " " == "`float_array` " {}
  lemma DefaultedFloatArrayDef2() ensures "`float_array` " + "array<float64>" == "`float_array` array<float64>" {}
  lemma DefaultedFloatArrayDef3() ensures "`float_array` array<float64>" + " not null" == "`float_array` array<float64> not null" {}
  lemma DefaultedFloatArrayDef4() ensures "`float_array` array<float64> not null" + " default (" == "`float_array` array<float64> not null default (" {}
  lemma DefaultedFloatArrayDef5() ensures "`float_array` array<float64> not null default (" + "[2.2, 3.3]" == "`float_array` array<float64> not null default ([2.2, 3.3]" {}
  lemma DefaultedFloatArrayDef6() ensures "`float_array` array<float64> not null default ([2.2, 3.3]" + ")" == "`float_array` array<float64> not null default ([2.2, 3.3])" {}

  lemma DefaultedFloatArrayLiteral() ensures DefaultLiteral(TypeOf(FloatArray), VArray([VDecimal("2.2"), VDecimal("3.3")])) == Ok("[2.2, 3.3]") {
    DefaultedFloatArrayElement1();
    DefaultedFloatArrayElement2();
    TwoElementDefaults(Float64Type, VDecimal("2.2"), VDecimal("3.3"), "2.2", "3.3");
    TwoJoined("2.2", "3.3");
    DefaultedFloatArrayInner();
    DefaultedFloatArrayBracket1();
    DefaultedFloatArrayBracket2();
    Chain2("[", "2.2, 3.3", "]", "[2.2, 3.3", "[2.2, 3.3]");
    FloatArrayType();
    ArrayDefault(FloatArray, Float64Type, [VDecimal("2.2"), VDecimal("3.3")], ["2.2", "3.3"], "[2.2, 3.3]");
  }
  lemma DefaultedFloatArrayColumn()
    ensures ColumnSql(Column("float_array", FloatArray, false, Some(VArray([VDecimal("2.2"), VDecimal("3.3")])), false, false, false)) == Ok("`float_array` array<float64> not null default ([2.2, 3.3])")
  {
    DefaultedFloatArrayQuoted();
    FloatArraySpelling();
    DefaultedFloatArrayDef1();
    DefaultedFloatArrayDef2();
    DefaultedFloatArrayDef3();
    DefaultedFloatArrayDef4();
    DefaultedFloatArrayDef5();
    DefaultedFloatArrayDef6();
    Chain6("`float_array`", " ", "array<float64>", " not null", " default (", "[2.2, 3.3]", ")", "`float_array` ", "`float_array` array<float64>", "`float_array` array<float64> not null", "`float_array` array<float64> not null default (", "`float_array` array<float64> not null default ([2.2, 3.3]", "`float_array` array<float64> not null default ([2.2, 3.3])");
    DefaultedFloatArrayLiteral();
    WithDefault(Column("float_array", FloatArray, false, Some(VArray([VDecimal("2.2"), VDecimal("3.3")])), false, false, false), "`float_array`", "array<float64>", "[2.2, 3.3]", "`float_array` array<float64> not null default ([2.2, 3.3])");
  }
  lemma DefaultedStringArrayElement1() ensures ScalarDefault(StringType(Fixed(1)), VString("a")) == Ok("\"a\"") { StringA(); StringElement(Fixed(1), "a", "\"a\""); }
  lemma DefaultedStringArrayElement2() ensures ScalarDefault(StringType(Fixed(1)), VString("b")) == Ok("\"b\"") { StringB(); StringElement(Fixed(1), "b", "\"b\""); }
  lemma DefaultedStringArrayInner() ensures "\"a\"" + ", " + "\"b\"" == "\"a\", \"b\"" {}
  lemma DefaultedStringArrayBracket1() ensures "[" + "\"a\", \"b\"" == "[\"a\", \"b\"" {}
  lemma DefaultedStringArrayBracket2() ensures "[\"a\", \"b\"" + "]" == "[\"a\", \"b\"]" {}
  lemma DefaultedStringArrayQuoted() ensures Wrap("string_array") == "`string_array`" {}
  lemma DefaultedStringArrayDef1() ensures "`string_array`" + " " == "`string_array` " {}
  lemma DefaultedStringArrayDef2() ensures "`string_array` " + "array<string(1)>" == "`string_array` array<string(1)>" {}
  lemma DefaultedStringArrayDef3() ensures "`string_array` array<string(1)>" + " not null" == "`string_array` array<string(1)> not null" {}
  lemma DefaultedStringArrayDef4() ensures "`string_array` array<string(1)> not null" + " default (" == "`string_array` array<string(1)> not null default (" {}
  lemma DefaultedStringArrayDef5() ensures "`string_array` array<string(1)> not null default (" + "[\"a\", \"b\"]" == "`string_array` array<string(1)> not null default ([\"a\", \"b\"]" {}
  lemma DefaultedStringArrayDef6() ensures "`string_array` array<string(1)> not null default ([\"a\", \"b\"]" + ")" == "`string_array` array<string(1)> not null default ([\"a\", \"b\"])" {}

  lemma DefaultedStringArrayLiteral() ensures DefaultLiteral(TypeOf(StringArray(Some(Fixed(1)))), VArray([VString("a"), VString("b")])) == Ok("[\"a\", \"b\"]") {
    DefaultedStringArrayElement1();
    DefaultedStringArrayElement2();
    TwoElementDefaults(StringType(Fixed(1)), VString("a"), VString("b"), "\"a\"", "\"b\"");
    TwoJoined("\"a\"", "\"b\"");
    DefaultedStringArrayInner();
    DefaultedStringArrayBracket1();
    DefaultedStringArrayBracket2();
    Chain2("[", "\"a\", \"b\"", "]", "[\"a\", \"b\"", "[\"a\", \"b\"]");
    StringArray1Type();
    ArrayDefault(StringArray(Some(Fixed(1))), StringType(Fixed(1)), [VString("a"), VString("b")], ["\"a\"", "\"b\""], "[\"a\", \"b\"]");
  }
  lemma DefaultedStringArrayColumn()
    ensures ColumnSql(Column("string_array", StringArray(Some(Fixed(1))), false, Some(VArray([VString("a"), VString("b")])), false, false, false)) == Ok("`string_array` array<string(1)> not null default ([\"a\", \"b\"])")
  {
    DefaultedStringArrayQuoted();
    StringArray1Spelling();
    DefaultedStringArrayDef1();
    DefaultedStringArrayDef2();
    DefaultedStringArrayDef3();
    DefaultedStringArrayDef4();
    DefaultedStringArrayDef5();
    DefaultedStringArrayDef6();
    Chain6("`string_array`", " ", "array<string(1)>", " not null", " default (", "[\"a\", \"b\"]", ")", "`string_array` ", "`string_array` array<string(1)>", "`string_array` array<string(1)> not null", "`string_array` array<string(1)> not null default (", "`string_array` array<string(1)> not null default ([\"a\", \"b\"]", "`string_array` array<string(1)> not null default ([\"a\", \"b\"])");
    DefaultedStringArrayLiteral();
    WithDefault(Column("string_array", StringArray(Some(Fixed(1))), false, Some(VArray([VString("a"), VString("b")])), false, false, false), "`string_array`", "array<string(1)>", "[\"a\", \"b\"]", "`string_array` array<string(1)> not null default ([\"a\", \"b\"])");
  }
  lemma DefaultedDateArrayElement1() ensures ScalarDefault(DateType, VInstant(NewYear2022)) == Ok("DATE \"2022-01-01\"") { NewYearDate(); DateElement(NewYear2022, "DATE \"2022-01-01\""); }
  lemma DefaultedDateArrayBracket1() ensures "[" + "DATE \"2022-01-01\"" == "[DATE \"2022-01-01\"" {}
  lemma DefaultedDateArrayBracket2() ensures "[DATE \"2022-01-01\"" + "]" == "[DATE \"2022-01-01\"]" {}
  lemma DefaultedDateArrayQuoted() ensures Wrap("date_array") == "`date_array`" {}
  lemma DefaultedDateArrayDef1() ensures "`date_array`" + " " == "`date_array` " {}
  lemma DefaultedDateArrayDef2() ensures "`date_array` " + "array<date>" == "`date_array` array<date>" {}
  lemma DefaultedDateArrayDef3() ensures "`date_array` array<date>" + " not null" == "`date_array` array<date> not null" {}
  lemma DefaultedDateArrayDef4() ensures "`date_array` array<date> not null" + " default (" == "`date_array` array<date> not null default (" {}
  lemma DefaultedDateArrayDef5() ensures "`date_array` array<date> not null default (" + "[DATE \"2022-01-01\"]" == "`date_array` array<date> not null default ([DATE \"2022-01-01\"]" {}
  lemma DefaultedDateArrayDef6() ensures "`date_array` array<date> not null default ([DATE \"2022-01-01\"]" + ")" == "`date_array` array<date> not null default ([DATE \"2022-01-01\"])" {}

  lemma DefaultedDateArrayLiteral() ensures DefaultLiteral(TypeOf(DateArray), VArray([VInstant(NewYear2022)])) == Ok("[DATE \"2022-01-01\"]") {
    DefaultedDateArrayElement1();
    OneElementDefault(DateType, VInstant(NewYear2022), "DATE \"2022-01-01\"");
    OneJoined("DATE \"2022-01-01\"");
    DefaultedDateArrayBracket1();
    DefaultedDateArrayBracket2();
    Chain2("[", "DATE \"2022-01-01\"", "]", "[DATE \"2022-01-01\"", "[DATE \"2022-01-01\"]");
    DateArrayType();
    ArrayDefault(DateArray, DateType, [VInstant(NewYear2022)], ["DATE \"2022-01-01\""], "[DATE \"2022-01-01\"]");
  }
  lemma DefaultedDateArrayColumn()
    ensures ColumnSql(Column("date_array", DateArray, false, Some(VArray([VInstant(NewYear2022)])), false, false, false)) == Ok("`date_array` array<date> not null default ([DATE \"2022-01-01\"])")
  {
    DefaultedDateArrayQuoted();
    DateArraySpelling();
    DefaultedDateArrayDef1();
    DefaultedDateArrayDef2();
    DefaultedDateArrayDef3();
    DefaultedDateArrayDef4();
    DefaultedDateArrayDef5();
    DefaultedDateArrayDef6();
    Chain6("`date_array`", " ", "array<date>", " not null", " default (", "[DATE \"2022-01-01\"]", ")", "`date_array` ", "`date_array` array<date>", "`date_array` array<date> not null", "`date_array` array<date> not null default (", "`date_array` array<date> not null default ([DATE \"2022-01-01\"]", "`date_array` array<date> not null default ([DATE \"2022-01-01\"])");
    DefaultedDateArrayLiteral();
    WithDefault(Column("date_array", DateArray, false, Some(VArray([VInstant(NewYear2022)])), false, false, false), "`date_array`", "array<date>", "[DATE \"2022-01-01\"]", "`date_array` array<date> not null default ([DATE \"2022-01-01\"])");
  }
  lemma DefaultedTimestampArrayElement1() ensures ScalarDefault(TimestampType, VInstant(NewYear2022)) == Ok("TIMESTAMP \"2022-01-01T00:00:00.000000+00:00\"") { NewYearTimestamp(); TimestampElement(NewYear2022, "TIMESTAMP \"2022-01-01T00:00:00.000000+00:00\""); }
  lemma DefaultedTimestampArrayBracket1() ensures "[" + "TIMESTAMP \"2022-01-01T" == "[TIMESTAMP \"2022-01-01T" {}
  lemma DefaultedTimestampArrayBracket2() ensures "[TIMESTAMP \"2022-01-01T" + "00:00:00.000000+00:00\"" == "[TIMESTAMP \"2022-01-01T00:00:00.000000+00:00\"" {}
  lemma DefaultedTimestampArrayBracket3() ensures "[TIMESTAMP \"2022-01-01T00:00:00.000000+00:00\"" + "]" == "[TIMESTAMP \"2022-01-01T00:00:00.000000+00:00\"]" {}
  lemma DefaultedTimestampArrayBracketHalf0() ensures "TIMESTAMP \"2022-01-01T" + "00:00:00.000000+00:00\"" == "TIMESTAMP \"2022-01-01T00:00:00.000000+00:00\"" {}
  lemma DefaultedTimestampArrayQuoted() ensures Wrap("timestamp_array") == "`timestamp_array`" {}
  lemma DefaultedTimestampArrayDef1() ensures "`timestamp_array`" + " " == "`timestamp_array` " {}
  lemma DefaultedTimestampArrayDef2() ensures "`timestamp_array` " + "array<timestamp>" == "`timestamp_array` array<timestamp>" {}
  lemma DefaultedTimestampArrayDef3() ensures "`timestamp_array` array<timestamp>" + " not null" == "`timestamp_array` array<timestamp> not null" {}
  lemma DefaultedTimestampArrayDef4() ensures "`timestamp_array` array<timestamp> not null" + " default (" == "`timestamp_array` array<timestamp> not null default (" {}
  lemma DefaultedTimestampArrayDef5() ensures "`timestamp_array` array<timestamp> not null default (" + "[TIMESTAMP \"2022-01-01T" == "`timestamp_array` array<timestamp> not null default ([TIMESTAMP \"2022-01-01T" {}
  lemma DefaultedTimestampArrayDef6() ensures "`timestamp_array` array<timestamp> not null default ([TIMESTAMP \"2022-01-01T" + "00:00:00.000000+00:00\"]" == "`timestamp_array` array<timestamp> not null default ([TIMESTAMP \"2022-01-01T00:00:00.000000+00:00\"]" {}
  lemma DefaultedTimestampArrayDef7() ensures "`timestamp_array` array<timestamp> not null default ([TIMESTAMP \"2022-01-01T00:00:00.000000+00:00\"]" + ")" == "`timestamp_array` array<timestamp> not null default ([TIMESTAMP \"2022-01-01T00:00:00.000000+00:00\"])" {}
  lemma DefaultedTimestampArrayDefHalf0() ensures "[TIMESTAMP \"2022-01-01T" + "00:00:00.000000+00:00\"]" == "[TIMESTAMP \"2022-01-01T00:00:00.000000+00:00\"]" {}

  lemma DefaultedTimestampArrayLiteral() ensures DefaultLiteral(TypeOf(TimestampArray), VArray([VInstant(NewYear2022)])) == Ok("[TIMESTAMP \"2022-01-01T00:00:00.000000+00:00\"]") {
    DefaultedTimestampArrayElement1();
    OneElementDefault(TimestampType, VInstant(NewYear2022), "TIMESTAMP \"2022-01-01T00:00:00.000000+00:00\"");
    OneJoined("TIMESTAMP \"2022-01-01T00:00:00.000000+00:00\"");
    DefaultedTimestampArrayBracket1();
    DefaultedTimestampArrayBracket2();
    DefaultedTimestampArrayBracket3();
    Chain3("[", "TIMESTAMP \"2022-01-01T", "00:00:00.000000+00:00\"", "]", "[TIMESTAMP \"2022-01-01T", "[TIMESTAMP \"2022-01-01T00:00:00.000000+00:00\"", "[TIMESTAMP \"2022-01-01T00:00:00.000000+00:00\"]");
    DefaultedTimestampArrayBracketHalf0();
    Assoc("[", "TIMESTAMP \"2022-01-01T", "00:00:00.000000+00:00\"");
    TimestampArrayType();
    ArrayDefault(TimestampArray, TimestampType, [VInstant(NewYear2022)], ["TIMESTAMP \"2022-01-01T00:00:00.000000+00:00\""], "[TIMESTAMP \"2022-01-01T00:00:00.000000+00:00\"]");
  }
  lemma DefaultedTimestampArrayColumn()
    ensures ColumnSql(Column("timestamp_array", TimestampArray, false, Some(VArray([VInstant(NewYear2022)])), false, false, false)) == Ok("`timestamp_array` array<timestamp> not null default ([TIMESTAMP \"2022-01-01T00:00:00.000000+00:00\"])")
  {
    DefaultedTimestampArrayQuoted();
    TimestampArraySpelling();
    DefaultedTimestampArrayDef1();
    DefaultedTimestampArrayDef2();
    DefaultedTimestampArrayDef3();
    DefaultedTimestampArrayDef4();
    DefaultedTimestampArrayDef5();
    DefaultedTimestampArrayDef6();
    DefaultedTimestampArrayDef7();
    Chain7("`timestamp_array`", " ", "array<timestamp>", " not null", " default (", "[TIMESTAMP \"2022-01-01T", "00:00:00.000000+00:00\"]", ")", "`timestamp_array` ", "`timestamp_array` array<timestamp>", "`timestamp_array` array<timestamp> not null", "`timestamp_array` array<timestamp> not null default (", "`timestamp_array` array<timestamp> not null default ([TIMESTAMP \"2022-01-01T", "`timestamp_array` array<timestamp> not null default ([TIMESTAMP \"2022-01-01T00:00:00.000000+00:00\"]", "`timestamp_array` array<timestamp> not null default ([TIMESTAMP \"2022-01-01T00:00:00.000000+00:00\"])");
    DefaultedTimestampArrayDefHalf0();
    Assoc("`timestamp_array` array<timestamp> not null default (", "[TIMESTAMP \"2022-01-01T", "00:00:00.000000+00:00\"]");
    DefaultedTimestampArrayLiteral();
    WithDefault(Column("timestamp_array", TimestampArray, false, Some(VArray([VInstant(NewYear2022)])), false, false, false), "`timestamp_array`", "array<timestamp>", "[TIMESTAMP \"2022-01-01T00:00:00.000000+00:00\"]", "`timestamp_array` array<timestamp> not null default ([TIMESTAMP \"2022-01-01T00:00:00.000000+00:00\"])");
  }

  // ---- whole create statements --------------------------------------------------

  /** Columns render to the given definitions when each one does. */
  lemma {:induction false} ColumnsRender(cs: seq<Column>, ds: seq<string>)
    requires |cs| == |ds| && forall i :: 0 <= i < |cs| ==> ColumnSql(cs[i]) == Ok(ds[i])
    ensures ColumnsSql(cs) == Ok(ds)
    decreases |cs|
  {
    if cs != [] {
      assert ColumnSql(cs[0]) == Ok(ds[0]);
      forall i | 0 <= i < |cs[1..]| ensures ColumnSql(cs[1..][i]) == Ok(ds[1..][i]) {
        assert ColumnSql(cs[i + 1]) == Ok(ds[i + 1]);
      }
      ColumnsRender(cs[1..], ds[1..]);
      assert [ds[0]] + ds[1..] == ds;
    }
  }

  /** Rendering a column list distributes over concatenation. */
  lemma ColumnsSqlAppend(a: seq<Column>, b: seq<Column>, da: seq<string>, db: seq<string>)
    requires ColumnsSql(a) == Ok(da) && ColumnsSql(b) == Ok(db)
    ensures ColumnsSql(a + b) == Ok(da + db)
  {
    ColumnsSqlInOrder(a);
    ColumnsSqlInOrder(b);
    forall i | 0 <= i < |a + b| ensures ColumnSql((a + b)[i]) == Ok((da + db)[i]) {
      if i < |a| {
        assert (a + b)[i] == a[i] && (da + db)[i] == da[i];
      } else {
        assert (a + b)[i] == b[i - |a|] && (da + db)[i] == db[i - |a|];
      }
    }
    ColumnsRender(a + b, da + db);
  }

  lemma Assemble3(a: seq<Column>, b: seq<Column>, c: seq<Column>,
                  da: seq<string>, db: seq<string>, dc: seq<string>)
    requires ColumnsSql(a) == Ok(da) && ColumnsSql(b) == Ok(db) && ColumnsSql(c) == Ok(dc)
    ensures ColumnsSql(a + b + c) == Ok(da + db + dc)
  {
    ColumnsSqlAppend(a, b, da, db);
    ColumnsSqlAppend(a + b, c, da + db, dc);
  }

  lemma Assemble4(a: seq<Column>, b: seq<Column>, c: seq<Column>, d: seq<Column>,
                  da: seq<string>, db: seq<string>, dc: seq<string>, dd: seq<string>)
    requires ColumnsSql(a) == Ok(da) && ColumnsSql(b) == Ok(db) && ColumnsSql(c) == Ok(dc) && ColumnsSql(d) == Ok(dd)
    ensures ColumnsSql(a + b + c + d) == Ok(da + db + dc + dd)
  {
    Assemble3(a, b, c, da, db, dc);
    ColumnsSqlAppend(a + b + c, d, da + db + dc, dd);
  }

  /** Each column recorded as a column definition command, in order. */
  function Commands(cs: seq<Column>): (r: seq<Command>)
    ensures |r| == |cs| && forall i :: 0 <= i < |cs| ==> r[i] == ColumnCommand(cs[i])
  {
    seq(|cs|, i requires 0 <= i < |cs| => ColumnCommand(cs[i]))
  }

  // ---- the columns of the all-types test ----

  function TypedColumns1(): seq<Column> {
    [Column("id", Uuid, false, None, false, false, true),
     Column("int", Integer, false, None, false, false, false)]
  }

  function TypedDefinitions1(): seq<string> {
    ["`id` string(36) not null",
     "`int` int64 not null"]
  }

  lemma TypedRendered1()
    ensures ColumnsSql(TypedColumns1()) == Ok(TypedDefinitions1())
  {
    var cs := TypedColumns1();
    var ds := TypedDefinitions1();
    forall i | 0 <= i < |cs| ensures ColumnSql(cs[i]) == Ok(ds[i]) {
      if i == 0 { TypedIdColumn(); }
      else if i == 1 { TypedIntColumn(); }
    }
    ColumnsRender(cs, ds);
  }

  function TypedColumns2(): seq<Column> {
    [Column("float", Float, false, None, false, false, false),
     Column("decimal", Decimal, false, None, false, false, false)]
  }

  function TypedDefinitions2(): seq<string> {
    ["`float` float64 not null",
     "`decimal` numeric not null"]
  }

  lemma TypedRendered2()
    ensures ColumnsSql(TypedColumns2()) == Ok(TypedDefinitions2())
  {
    var cs := TypedColumns2();
    var ds := TypedDefinitions2();
    forall i | 0 <= i < |cs| ensures ColumnSql(cs[i]) == Ok(ds[i]) {
      if i == 0 { TypedFloatColumn(); }
      else if i == 1 { TypedDecimalColumn(); }
    }
    ColumnsRender(cs, ds);
  }

  function TypedColumns3(): seq<Column> {
    [Column("name", StringKind(255), false, None, false, false, false),
     Column("char", CharKind(255), false, None, false, false, false)]
  }

  function TypedDefinitions3(): seq<string> {
    ["`name` string(255) not null",
     "`char` string(255) not null"]
  }

  lemma TypedRendered3()
    ensures ColumnsSql(TypedColumns3()) == Ok(TypedDefinitions3())
  {
    var cs := TypedColumns3();
    var ds := TypedDefinitions3();
    forall i | 0 <= i < |cs| ensures ColumnSql(cs[i]) == Ok(ds[i]) {
      if i == 0 { TypedNameColumn(); }
      else if i == 1 { TypedCharColumn(); }
    }
    ColumnsRender(cs, ds);
  }

  function TypedColumns4(): seq<Column> {
    [Column("text", Text, false, None, false, false, false),
     Column("medium_text", MediumText, false, None, false, false, false)]
  }

  function TypedDefinitions4(): seq<string> {
    ["`text` string(max) not null",
     "`medium_text` string(max) not null"]
  }

  lemma TypedRendered4()
    ensures ColumnsSql(TypedColumns4()) == Ok(TypedDefinitions4())
  {
    var cs := TypedColumns4();
    var ds := TypedDefinitions4();
    forall i | 0 <= i < |cs| ensures ColumnSql(cs[i]) == Ok(ds[i]) {
      if i == 0 { TypedTextColumn(); }
      else if i == 1 { TypedMediumTextColumn(); }
    }
    ColumnsRender(cs, ds);
  }

  function TypedColumns5(): seq<Column> {
    [Column("long_text", LongText, false, None, false, false, false),
     Column("started_at", DateTime, false, None, false, false, false)]
  }

  function TypedDefinitions5(): seq<string> {
    ["`long_text` string(max) not null",
     "`started_at` timestamp not null"]
  }

  lemma TypedRendered5()
    ensures ColumnsSql(TypedColumns5()) == Ok(TypedDefinitions5())
  {
    var cs := TypedColumns5();
    var ds := TypedDefinitions5();
    forall i | 0 <= i < |cs| ensures ColumnSql(cs[i]) == Ok(ds[i]) {
      if i == 0 { TypedLongTextColumn(); }
      else if i == 1 { TypedStartedAtColumn(); }
    }
    ColumnsRender(cs, ds);
  }

  function TypedColumns6(): seq<Column> {
    [Column("blob", Binary, false, None, false, false, false),
     Column("json", Json, false, None, false, false, false)]
  }

  function TypedDefinitions6(): seq<string> {
    ["`blob` bytes(255) not null",
     "`json` json not null"]
  }

  lemma TypedRendered6()
    ensures ColumnsSql(TypedColumns6()) == Ok(TypedDefinitions6())
  {
    var cs := TypedColumns6();
    var ds := TypedDefinitions6();
    forall i | 0 <= i < |cs| ensures ColumnSql(cs[i]) == Ok(ds[i]) {
      if i == 0 { TypedBlobColumn(); }
      else if i == 1 { TypedJsonColumn(); }
    }
    ColumnsRender(cs, ds);
  }

  function TypedColumns7(): seq<Column> {
    [Column("int_array", IntegerArray, true, None, false, false, false),
     Column("bool_array", BooleanArray, true, None, false, false, false)]
  }

  function TypedDefinitions7(): seq<string> {
    ["`int_array` array<int64>",
     "`bool_array` array<bool>"]
  }

  lemma TypedRendered7()
    ensures ColumnsSql(TypedColumns7()) == Ok(TypedDefinitions7())
  {
    var cs := TypedColumns7();
    var ds := TypedDefinitions7();
    forall i | 0 <= i < |cs| ensures ColumnSql(cs[i]) == Ok(ds[i]) {
      if i == 0 { TypedIntArrayColumn(); }
      else if i == 1 { TypedBoolArrayColumn(); }
    }
    ColumnsRender(cs, ds);
  }

  function TypedColumns8(): seq<Column> {
    [Column("float_array", FloatArray, true, None, false, false, false),
     Column("decimal_array", DecimalArray, true, None, false, false, false)]
  }

  function TypedDefinitions8(): seq<string> {
    ["`float_array` array<float64>",
     "`decimal_array` array<numeric>"]
  }

  lemma TypedRendered8()
    ensures ColumnsSql(TypedColumns8()) == Ok(TypedDefinitions8())
  {
    var cs := TypedColumns8();
    var ds := TypedDefinitions8();
    forall i | 0 <= i < |cs| ensures ColumnSql(cs[i]) == Ok(ds[i]) {
      if i == 0 { TypedFloatArrayColumn(); }
      else if i == 1 { TypedDecimalArrayColumn(); }
    }
    ColumnsRender(cs, ds);
  }

  function TypedColumns9(): seq<Column> {
    [Column("string_array_undef", StringArray(None), true, None, false, false, false),
     Column("string_array_1", StringArray(Some(Fixed(1))), true, None, false, false, false)]
  }

  function TypedDefinitions9(): seq<string> {
    ["`string_array_undef` array<string(255)>",
     "`string_array_1` array<string(1)>"]
  }

  lemma TypedRendered9()
    ensures ColumnsSql(TypedColumns9()) == Ok(TypedDefinitions9())
  {
    var cs := TypedColumns9();
    var ds := TypedDefinitions9();
    forall i | 0 <= i < |cs| ensures ColumnSql(cs[i]) == Ok(ds[i]) {
      if i == 0 { TypedStringArrayUndefColumn(); }
      else if i == 1 { TypedStringArray1Column(); }
    }
    ColumnsRender(cs, ds);
  }

  function TypedColumns10(): seq<Column> {
    [Column("string_array_max", StringArray(Some(Max)), true, None, false, false, false),
     Column("timestamp_array", TimestampArray, true, None, false, false, false)]
  }

  function TypedDefinitions10(): seq<string> {
    ["`string_array_max` array<string(max)>",
     "`timestamp_array` array<timestamp>"]
  }

  lemma TypedRendered10()
    ensures ColumnsSql(TypedColumns10()) == Ok(TypedDefinitions10())
  {
    var cs := TypedColumns10();
    var ds := TypedDefinitions10();
    forall i | 0 <= i < |cs| ensures ColumnSql(cs[i]) == Ok(ds[i]) {
      if i == 0 { TypedStringArrayMaxColumn(); }
      else if i == 1 { TypedTimestampArrayColumn(); }
    }
    ColumnsRender(cs, ds);
  }

  function TypedColumns11(): seq<Column> {
    [Column("created_at", Timestamp, true, None, false, false, false),
     Column("updated_at", Timestamp, true, None, false, false, false)]
  }

  function TypedDefinitions11(): seq<string> {
    ["`created_at` timestamp",
     "`updated_at` timestamp"]
  }

  lemma TypedRendered11()
    ensures ColumnsSql(TypedColumns11()) == Ok(TypedDefinitions11())
  {
    var cs := TypedColumns11();
    var ds := TypedDefinitions11();
    forall i | 0 <= i < |cs| ensures ColumnSql(cs[i]) == Ok(ds[i]) {
      if i == 0 { TypedCreatedAtColumn(); }
      else if i == 1 { TypedUpdatedAtColumn(); }
    }
    ColumnsRender(cs, ds);
  }

  function TypedColumnsPart1(): seq<Column> {
    TypedColumns1() + TypedColumns2() + TypedColumns3() + TypedColumns4()
  }

  function TypedDefinitionsPart1(): seq<string> {
    TypedDefinitions1() + TypedDefinitions2() + TypedDefinitions3() + TypedDefinitions4()
  }

  lemma TypedRenderedPart1()
    ensures ColumnsSql(TypedColumnsPart1()) == Ok(TypedDefinitionsPart1())
  {
    TypedRendered1();
    TypedRendered2();
    TypedRendered3();
    TypedRendered4();
    Assemble4(TypedColumns1(), TypedColumns2(), TypedColumns3(), TypedColumns4(),
              TypedDefinitions1(), TypedDefinitions2(), TypedDefinitions3(), TypedDefinitions4());
  }

  function TypedColumnsPart2(): seq<Column> {
    TypedColumns5() + TypedColumns6() + TypedColumns7() + TypedColumns8()
  }

  function TypedDefinitionsPart2(): seq<string> {
    TypedDefinitions5() + TypedDefinitions6() + TypedDefinitions7() + TypedDefinitions8()
  }

  lemma TypedRenderedPart2()
    ensures ColumnsSql(TypedColumnsPart2()) == Ok(TypedDefinitionsPart2())
  {
    TypedRendered5();
    TypedRendered6();
    TypedRendered7();
    TypedRendered8();
    Assemble4(TypedColumns5(), TypedColumns6(), TypedColumns7(), TypedColumns8(),
              TypedDefinitions5(), TypedDefinitions6(), TypedDefinitions7(), TypedDefinitions8());
  }

  function TypedColumnsPart3(): seq<Column> {
    TypedColumns9() + TypedColumns10() + TypedColumns11()
  }

  function TypedDefinitionsPart3(): seq<string> {
    TypedDefinitions9() + TypedDefinitions10() + TypedDefinitions11()
  }

  lemma TypedRenderedPart3()
    ensures ColumnsSql(TypedColumnsPart3()) == Ok(TypedDefinitionsPart3())
  {
    TypedRendered9();
    TypedRendered10();
    TypedRendered11();
    Assemble3(TypedColumns9(), TypedColumns10(), TypedColumns11(),
              TypedDefinitions9(), TypedDefinitions10(), TypedDefinitions11());
  }

  /** Every column kind the driver accepts; the first is marked `->primary()`. */
  function TypedColumns(): seq<Column> {
    TypedColumnsPart1() + TypedColumnsPart2() + TypedColumnsPart3()
  }

  /** The definitions the test expects, in its order. */
  function TypedDefinitions(): seq<string> {
    TypedDefinitionsPart1() + TypedDefinitionsPart2() + TypedDefinitionsPart3()
  }

  lemma TypedRendered()
    ensures ColumnsSql(TypedColumns()) == Ok(TypedDefinitions())
  {
    TypedRenderedPart1();
    TypedRenderedPart2();
    TypedRenderedPart3();
    Assemble3(TypedColumnsPart1(), TypedColumnsPart2(), TypedColumnsPart3(),
              TypedDefinitionsPart1(), TypedDefinitionsPart2(), TypedDefinitionsPart3());
  }

  // ---- the columns of the default-values test ----

  function DefaultedColumns1(): seq<Column> {
    [Column("id", Uuid, false, None, false, false, false),
     Column("null", Integer, true, None, false, false, false)]
  }

  function DefaultedDefinitions1(): seq<string> {
    ["`id` string(36) not null",
     "`null` int64"]
  }

  lemma DefaultedRendered1()
    ensures ColumnsSql(DefaultedColumns1()) == Ok(DefaultedDefinitions1())
  {
    var cs := DefaultedColumns1();
    var ds := DefaultedDefinitions1();
    forall i | 0 <= i < |cs| ensures ColumnSql(cs[i]) == Ok(ds[i]) {
      if i == 0 { DefaultedIdColumn(); }
      else if i == 1 { DefaultedNullColumn(); }
    }
    ColumnsRender(cs, ds);
  }

  function DefaultedColumns2(): seq<Column> {
    [Column("int", Integer, false, Some(VInt(1)), false, false, false),
     Column("bigint", BigInteger, false, Some(VInt(1)), false, false, false)]
  }

  function DefaultedDefinitions2(): seq<string> {
    ["`int` int64 not null default (1)",
     "`bigint` int64 not null default (1)"]
  }

  lemma DefaultedRendered2()
    ensures ColumnsSql(DefaultedColumns2()) == Ok(DefaultedDefinitions2())
  {
    var cs := DefaultedColumns2();
    var ds := DefaultedDefinitions2();
    forall i | 0 <= i < |cs| ensures ColumnSql(cs[i]) == Ok(ds[i]) {
      if i == 0 { DefaultedIntColumn(); }
      else if i == 1 { DefaultedBigintColumn(); }
    }
    ColumnsRender(cs, ds);
  }

  function DefaultedColumns3(): seq<Column> {
    [Column("float", Float, false, Some(VDecimal("0.1")), false, false, false),
     Column("double", Double, false, Some(VDecimal("0.1")), false, false, false)]
  }

  function DefaultedDefinitions3(): seq<string> {
    ["`float` float64 not null default (0.1)",
     "`double` float64 not null default (0.1)"]
  }

  lemma DefaultedRendered3()
    ensures ColumnsSql(DefaultedColumns3()) == Ok(DefaultedDefinitions3())
  {
    var cs := DefaultedColumns3();
    var ds := DefaultedDefinitions3();
    forall i | 0 <= i < |cs| ensures ColumnSql(cs[i]) == Ok(ds[i]) {
      if i == 0 { DefaultedFloatColumn(); }
      else if i == 1 { DefaultedDoubleColumn(); }
    }
    ColumnsRender(cs, ds);
  }

  function DefaultedColumns4(): seq<Column> {
    [Column("decimal", Decimal, false, Some(VDecimal("123.456")), false, false, false),
     Column("bool", Boolean, false, Some(VBool(true)), false, false, false)]
  }

  function DefaultedDefinitions4(): seq<string> {
    ["`decimal` numeric not null default (123.456)",
     "`bool` bool not null default (true)"]
  }

  lemma DefaultedRendered4()
    ensures ColumnsSql(DefaultedColumns4()) == Ok(DefaultedDefinitions4())
  {
    var cs := DefaultedColumns4();
    var ds := DefaultedDefinitions4();
    forall i | 0 <= i < |cs| ensures ColumnSql(cs[i]) == Ok(ds[i]) {
      if i == 0 { DefaultedDecimalColumn(); }
      else if i == 1 { DefaultedBoolColumn(); }
    }
    ColumnsRender(cs, ds);
  }

  function DefaultedColumns5(): seq<Column> {
    [Column("string", StringKind(255), false, Some(VString("a")), false, false, false),
     Column("string_max", Text, false, Some(VString("a")), false, false, false)]
  }

  function DefaultedDefinitions5(): seq<string> {
    ["`string` string(255) not null default (\"a\")",
     "`string_max` string(max) not null default (\"a\")"]
  }

  lemma DefaultedRendered5()
    ensures ColumnsSql(DefaultedColumns5()) == Ok(DefaultedDefinitions5())
  {
    var cs := DefaultedColumns5();
    var ds := DefaultedDefinitions5();
    forall i | 0 <= i < |cs| ensures ColumnSql(cs[i]) == Ok(ds[i]) {
      if i == 0 { DefaultedStringColumn(); }
      else if i == 1 { DefaultedStringMaxColumn(); }
    }
    ColumnsRender(cs, ds);
  }

  function DefaultedColumns6(): seq<Column> {
    [Column("char", CharKind(255), false, Some(VString("a")), false, false, false),
     Column("medium_text", MediumText, false, Some(VString("a")), false, false, false)]
  }

  function DefaultedDefinitions6(): seq<string> {
    ["`char` string(255) not null default (\"a\")",
     "`medium_text` string(max) not null default (\"a\")"]
  }

  lemma DefaultedRendered6()
    ensures ColumnsSql(DefaultedColumns6()) == Ok(DefaultedDefinitions6())
  {
    var cs := DefaultedColumns6();
    var ds := DefaultedDefinitions6();
    forall i | 0 <= i < |cs| ensures ColumnSql(cs[i]) == Ok(ds[i]) {
      if i == 0 { DefaultedCharColumn(); }
      else if i == 1 { DefaultedMediumTextColumn(); }
    }
    ColumnsRender(cs, ds);
  }

  function DefaultedColumns7(): seq<Column> {
    [Column("long_text", LongText, false, Some(VString("a")), false, false, false),
     Column("raw", Float, false, Some(VRaw("1.1")), false, false, false)]
  }

  function DefaultedDefinitions7(): seq<string> {
    ["`long_text` string(max) not null default (\"a\")",
     "`raw` float64 not null default (1.1)"]
  }

  lemma DefaultedRendered7()
    ensures ColumnsSql(DefaultedColumns7()) == Ok(DefaultedDefinitions7())
  {
    var cs := DefaultedColumns7();
    var ds := DefaultedDefinitions7();
    forall i | 0 <= i < |cs| ensures ColumnSql(cs[i]) == Ok(ds[i]) {
      if i == 0 { DefaultedLongTextColumn(); }
      else if i == 1 { DefaultedRawColumn(); }
    }
    ColumnsRender(cs, ds);
  }

  function DefaultedColumns8(): seq<Column> {
    [Column("json", Json, false, Some(VRaw("json \"[1,2,3]\"")), false, false, false),
     Column("date_as_string", Date, false, Some(VInstant(NewYear2022)), false, false, false)]
  }

  function DefaultedDefinitions8(): seq<string> {
    ["`json` json not null default (json \"[1,2,3]\")",
     "`date_as_string` date not null default (DATE \"2022-01-01\")"]
  }

  lemma DefaultedRendered8()
    ensures ColumnsSql(DefaultedColumns8()) == Ok(DefaultedDefinitions8())
  {
    var cs := DefaultedColumns8();
    var ds := DefaultedDefinitions8();
    forall i | 0 <= i < |cs| ensures ColumnSql(cs[i]) == Ok(ds[i]) {
      if i == 0 { DefaultedJsonColumn(); }
      else if i == 1 { DefaultedDateAsStringColumn(); }
    }
    ColumnsRender(cs, ds);
  }

  function DefaultedColumns9(): seq<Column> {
    [Column("date_as_carbon", Date, false, Some(VInstant(NewYear2022)), false, false, false),
     Column("time_as_string", DateTime, false, Some(VInstant(NewYear2022)), false, false, false)]
  }

  function DefaultedDefinitions9(): seq<string> {
    ["`date_as_carbon` date not null default (DATE \"2022-01-01\")",
     "`time_as_string` timestamp not null default (TIMESTAMP \"2022-01-01T00:00:00.000000+00:00\")"]
  }

  lemma DefaultedRendered9()
    ensures ColumnsSql(DefaultedColumns9()) == Ok(DefaultedDefinitions9())
  {
    var cs := DefaultedColumns9();
    var ds := DefaultedDefinitions9();
    forall i | 0 <= i < |cs| ensures ColumnSql(cs[i]) == Ok(ds[i]) {
      if i == 0 { DefaultedDateAsCarbonColumn(); }
      else if i == 1 { DefaultedTimeAsStringColumn(); }
    }
    ColumnsRender(cs, ds);
  }

  function DefaultedColumns10(): seq<Column> {
    [Column("time_as_carbon", DateTime, false, Some(VInstant(NewYear2022)), false, false, false),
     Column("current_time", DateTime, false, None, true, false, false)]
  }

  function DefaultedDefinitions10(): seq<string> {
    ["`time_as_carbon` timestamp not null default (TIMESTAMP \"2022-01-01T00:00:00.000000+00:00\")",
     "`current_time` timestamp not null default (CURRENT_TIMESTAMP())"]
  }

  lemma DefaultedRendered10()
    ensures ColumnsSql(DefaultedColumns10()) == Ok(DefaultedDefinitions10())
  {
    var cs := DefaultedColumns10();
    var ds := DefaultedDefinitions10();
    forall i | 0 <= i < |cs| ensures ColumnSql(cs[i]) == Ok(ds[i]) {
      if i == 0 { DefaultedTimeAsCarbonColumn(); }
      else if i == 1 { DefaultedCurrentTimeColumn(); }
    }
    ColumnsRender(cs, ds);
  }

  function DefaultedColumns11(): seq<Column> {
    [Column("current_time_as_ts", Timestamp, false, None, true, false, false),
     Column("int_array", IntegerArray, false, Some(VArray([VInt(1), VInt(2)])), false, false, false)]
  }

  function DefaultedDefinitions11(): seq<string> {
    ["`current_time_as_ts` timestamp not null default (CURRENT_TIMESTAMP())",
     "`int_array` array<int64> not null default ([1, 2])"]
  }

  lemma DefaultedRendered11()
    ensures ColumnsSql(DefaultedColumns11()) == Ok(DefaultedDefinitions11())
  {
    var cs := DefaultedColumns11();
    var ds := DefaultedDefinitions11();
    forall i | 0 <= i < |cs| ensures ColumnSql(cs[i]) == Ok(ds[i]) {
      if i == 0 { DefaultedCurrentTimeAsTsColumn(); }
      else if i == 1 { DefaultedIntArrayColumn(); }
    }
    ColumnsRender(cs, ds);
  }

  function DefaultedColumns12(): seq<Column> {
    [Column("bool_array", BooleanArray, false, Some(VArray([VBool(false), VBool(true)])), false, false, false),
     Column("float_array", FloatArray, false, Some(VArray([VDecimal("2.2"), VDecimal("3.3")])), false, false, false)]
  }

  function DefaultedDefinitions12(): seq<string> {
    ["`bool_array` array<bool> not null default ([false, true])",
     "`float_array` array<float64> not null default ([2.2, 3.3])"]
  }

  lemma DefaultedRendered12()
    ensures ColumnsSql(DefaultedColumns12()) == Ok(DefaultedDefinitions12())
  {
    var cs := DefaultedColumns12();
    var ds := DefaultedDefinitions12();
    forall i | 0 <= i < |cs| ensures ColumnSql(cs[i]) == Ok(ds[i]) {
      if i == 0 { DefaultedBoolArrayColumn(); }
      else if i == 1 { DefaultedFloatArrayColumn(); }
    }
    ColumnsRender(cs, ds);
  }

  function DefaultedColumns13(): seq<Column> {
    [Column("string_array", StringArray(Some(Fixed(1))), false, Some(VArray([VString("a"), VString("b")])), false, false, false),
     Column("date_array", DateArray, false, Some(VArray([VInstant(NewYear2022)])), false, false, false)]
  }

  function DefaultedDefinitions13(): seq<string> {
    ["`string_array` array<string(1)> not null default ([\"a\", \"b\"])",
     "`date_array` array<date> not null default ([DATE \"2022-01-01\"])"]
  }

  lemma DefaultedRendered13()
    ensures ColumnsSql(DefaultedColumns13()) == Ok(DefaultedDefinitions13())
  {
    var cs := DefaultedColumns13();
    var ds := DefaultedDefinitions13();
    forall i | 0 <= i < |cs| ensures ColumnSql(cs[i]) == Ok(ds[i]) {
      if i == 0 { DefaultedStringArrayColumn(); }
      else if i == 1 { DefaultedDateArrayColumn(); }
    }
    ColumnsRender(cs, ds);
  }

  function DefaultedColumns14(): seq<Column> {
    [Column("timestamp_array", TimestampArray, false, Some(VArray([VInstant(NewYear2022)])), false, false, false)]
  }

  function DefaultedDefinitions14(): seq<string> {
    ["`timestamp_array` array<timestamp> not null default ([TIMESTAMP \"2022-01-01T00:00:00.000000+00:00\"])"]
  }

  lemma DefaultedRendered14()
    ensures ColumnsSql(DefaultedColumns14()) == Ok(DefaultedDefinitions14())
  {
    var cs := DefaultedColumns14();
    var ds := DefaultedDefinitions14();
    forall i | 0 <= i < |cs| ensures ColumnSql(cs[i]) == Ok(ds[i]) {
      if i == 0 { DefaultedTimestampArrayColumn(); }
    }
    ColumnsRender(cs, ds);
  }

  function DefaultedColumnsPart1(): seq<Column> {
    DefaultedColumns1() + DefaultedColumns2() + DefaultedColumns3() + DefaultedColumns4()
  }

  function DefaultedDefinitionsPart1(): seq<string> {
    DefaultedDefinitions1() + DefaultedDefinitions2() + DefaultedDefinitions3() + DefaultedDefinitions4()
  }

  lemma DefaultedRenderedPart1()
    ensures ColumnsSql(DefaultedColumnsPart1()) == Ok(DefaultedDefinitionsPart1())
  {
    DefaultedRendered1();
    DefaultedRendered2();
    DefaultedRendered3();
    DefaultedRendered4();
    Assemble4(DefaultedColumns1(), DefaultedColumns2(), DefaultedColumns3(), DefaultedColumns4(),
              DefaultedDefinitions1(), DefaultedDefinitions2(), DefaultedDefinitions3(), DefaultedDefinitions4());
  }

  function DefaultedColumnsPart2(): seq<Column> {
    DefaultedColumns5() + DefaultedColumns6() + DefaultedColumns7() + DefaultedColumns8()
  }

  function DefaultedDefinitionsPart2(): seq<string> {
    DefaultedDefinitions5() + DefaultedDefinitions6() + DefaultedDefinitions7() + DefaultedDefinitions8()
  }

  lemma DefaultedRenderedPart2()
    ensures ColumnsSql(DefaultedColumnsPart2()) == Ok(DefaultedDefinitionsPart2())
  {
    DefaultedRendered5();
    DefaultedRendered6();
    DefaultedRendered7();
    DefaultedRendered8();
    Assemble4(DefaultedColumns5(), DefaultedColumns6(), DefaultedColumns7(), DefaultedColumns8(),
              DefaultedDefinitions5(), DefaultedDefinitions6(), DefaultedDefinitions7(), DefaultedDefinitions8());
  }

  function DefaultedColumnsPart3(): seq<Column> {
    DefaultedColumns9() + DefaultedColumns10() + DefaultedColumns11() + DefaultedColumns12()
  }

  function DefaultedDefinitionsPart3(): seq<string> {
    DefaultedDefinitions9() + DefaultedDefinitions10() + DefaultedDefinitions11() + DefaultedDefinitions12()
  }

  lemma DefaultedRenderedPart3()
    ensures ColumnsSql(DefaultedColumnsPart3()) == Ok(DefaultedDefinitionsPart3())
  {
    DefaultedRendered9();
    DefaultedRendered10();
    DefaultedRendered11();
    DefaultedRendered12();
    Assemble4(DefaultedColumns9(), DefaultedColumns10(), DefaultedColumns11(), DefaultedColumns12(),
              DefaultedDefinitions9(), DefaultedDefinitions10(), DefaultedDefinitions11(), DefaultedDefinitions12());
  }

  function DefaultedColumnsPart4(): seq<Column> {
    DefaultedColumns13() + DefaultedColumns14()
  }

  function DefaultedDefinitionsPart4(): seq<string> {
    DefaultedDefinitions13() + DefaultedDefinitions14()
  }

  lemma DefaultedRenderedPart4()
    ensures ColumnsSql(DefaultedColumnsPart4()) == Ok(DefaultedDefinitionsPart4())
  {
    DefaultedRendered13();
    DefaultedRendered14();
    ColumnsSqlAppend(DefaultedColumns13(), DefaultedColumns14(),
                     DefaultedDefinitions13(), DefaultedDefinitions14());
  }

  /** One column per kind of default value. */
  function DefaultedColumns(): seq<Column> {
    DefaultedColumnsPart1() + DefaultedColumnsPart2() + DefaultedColumnsPart3() + DefaultedColumnsPart4()
  }

  /** The definitions the test expects, in its order. */
  function DefaultedDefinitions(): seq<string> {
    DefaultedDefinitionsPart1() + DefaultedDefinitionsPart2() + DefaultedDefinitionsPart3() + DefaultedDefinitionsPart4()
  }

  lemma DefaultedRendered()
    ensures ColumnsSql(DefaultedColumns()) == Ok(DefaultedDefinitions())
  {
    DefaultedRenderedPart1();
    DefaultedRenderedPart2();
    DefaultedRenderedPart3();
    DefaultedRenderedPart4();
    Assemble4(DefaultedColumnsPart1(), DefaultedColumnsPart2(), DefaultedColumnsPart3(), DefaultedColumnsPart4(),
              DefaultedDefinitionsPart1(), DefaultedDefinitionsPart2(), DefaultedDefinitionsPart3(), DefaultedDefinitionsPart4());
  }

  // ---- the two create statements ----

  /** With only column definitions recorded, the key is the first column marked `->primary()`. */
  lemma FluentKeyFirsts(t: string, cs: seq<Column>)
    requires FirstFluentPrimary(cs) == Some(["id"])
    ensures var b := BlueprintState(t, cs, Commands(cs));
      PrimaryKey(b) == Some(["id"]) && FirstInterleave(b.commands) == None && FirstPolicy(b.commands) == None
  {
    var none: seq<Command> := [];
    assert Commands(cs) + none == Commands(cs);
    FirstsSkipColumns(Commands(cs), none);
  }

  /** Column definitions followed by `primary('id')`: that call decides the key. */
  lemma ExplicitKeyFirsts(t: string, cs: seq<Column>)
    ensures var b := BlueprintState(t, cs, Commands(cs) + [SchemaGrammar.Primary(["id"])]);
      PrimaryKey(b) == Some(["id"]) && FirstInterleave(b.commands) == None && FirstPolicy(b.commands) == None
  {
    var rest := [SchemaGrammar.Primary(["id"])];
    FirstsSkipColumns(Commands(cs), rest);
    assert rest[1..] == [];
    assert FirstPrimary(rest) == Some(["id"]);
    assert FirstInterleave(rest[1..]) == None;
    assert FirstPolicy(rest[1..]) == None;
  }

  /** Columns keyed by the first column marked `->primary()`, then `create()`. */
  lemma FluentKeyCreate(t: string, cs: seq<Column>, defs: seq<string>)
    requires ColumnsSql(cs) == Ok(defs) && FirstFluentPrimary(cs) == Some(["id"])
    ensures CreateTableSql(BlueprintState(t, cs, Commands(cs)))
         == Ok(CreateHead(t) + Join(defs, ", ") + ") primary key (`id`)")
  {
    FluentKeyFirsts(t, cs);
    IdKey();
    IdClosed();
    CreateStatementParts(BlueprintState(t, cs, Commands(cs)), defs, Join(defs, ", "),
                         " primary key (`id`)", ") primary key (`id`)", "", "");
    NoClauses(CreateHead(t) + Join(defs, ", ") + ") primary key (`id`)");
  }

  /** Columns, then `primary('id')`, then `create()`. */
  lemma ExplicitKeyCreate(t: string, cs: seq<Column>, defs: seq<string>)
    requires ColumnsSql(cs) == Ok(defs)
    ensures CreateTableSql(BlueprintState(t, cs, Commands(cs) + [SchemaGrammar.Primary(["id"])]))
         == Ok(CreateHead(t) + Join(defs, ", ") + ") primary key (`id`)")
  {
    ExplicitKeyFirsts(t, cs);
    IdKey();
    IdClosed();
    CreateStatementParts(BlueprintState(t, cs, Commands(cs) + [SchemaGrammar.Primary(["id"])]), defs, Join(defs, ", "),
                         " primary key (`id`)", ") primary key (`id`)", "", "");
    NoClauses(CreateHead(t) + Join(defs, ", ") + ") primary key (`id`)");
  }

  lemma TypedKey()
    ensures FirstFluentPrimary(TypedColumns()) == Some(["id"])
  {
    assert TypedColumns()[0] == TypedColumns1()[0];
  }

  /** The all-types test: every column in declaration order, keyed by the column
      marked `->primary()`. */
  lemma AllValidTypesSql(t: string)
    ensures CreateTableSql(BlueprintState(t, TypedColumns(), Commands(TypedColumns())))
         == Ok(CreateHead(t) + Join(TypedDefinitions(), ", ") + ") primary key (`id`)")
  {
    TypedRendered();
    TypedKey();
    FluentKeyCreate(t, TypedColumns(), TypedDefinitions());
  }

  /** The default-values test: the columns, then `primary('id')`. */
  lemma DefaultValuesSql(t: string)
    ensures CreateTableSql(BlueprintState(t, DefaultedColumns(), Commands(DefaultedColumns()) + [SchemaGrammar.Primary(["id"])]))
         == Ok(CreateHead(t) + Join(DefaultedDefinitions(), ", ") + ") primary key (`id`)")
  {
    DefaultedRendered();
    ExplicitKeyCreate(t, DefaultedColumns(), DefaultedDefinitions());
  }
}
