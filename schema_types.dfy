/** Column types of the schema synthesizer: the Laravel column kinds a blueprint
    accepts, the Cloud Spanner types they map to, how a type is spelled in DDL,
    and how a default value is written as a literal of its column's type. */
module SchemaTypes {
  import opened Common
  import opened Text
  import opened Codec

  /** Laravel's default string length (`Builder::$defaultStringLength`). */
  const DefaultStringLength: nat := 255

  datatype Length = Max | Fixed(n: nat)

  datatype ScalarType =
    | BoolType
    | Int64Type
    | Float64Type
    | NumericType
    | StringType(length: Length)
    | BytesType(size: Length)
    | DateType
    | TimestampType
    | JsonType

  datatype ColumnType = Scalar(scalar: ScalarType) | ArrayOf(elem: ScalarType)

  /** The blueprint methods that declare a column, with their length arguments. */
  datatype ColumnKind =
    | Uuid
    | Integer
    | BigInteger
    | Float
    | Double
    | Decimal
    | Boolean
    | StringKind(stringLength: nat)
    | CharKind(charLength: nat)
    | Text
    | MediumText
    | LongText
    | Date
    | DateTime
    | Timestamp
    | Binary
    | Json
    | IntegerArray
    | BooleanArray
    | FloatArray
    | DecimalArray
    | StringArray(arrayLength: Option<Length>)
    | DateArray
    | TimestampArray

  /** The Cloud Spanner type each column kind is created with. */
  function TypeOf(k: ColumnKind): ColumnType {
    match k
    case Uuid => Scalar(StringType(Fixed(36)))
    case Integer => Scalar(Int64Type)
    case BigInteger => Scalar(Int64Type)
    case Float => Scalar(Float64Type)
    case Double => Scalar(Float64Type)
    case Decimal => Scalar(NumericType)
    case Boolean => Scalar(BoolType)
    case StringKind(n) => Scalar(StringType(Fixed(n)))
    case CharKind(n) => Scalar(StringType(Fixed(n)))
    case Text => Scalar(StringType(Max))
    case MediumText => Scalar(StringType(Max))
    case LongText => Scalar(StringType(Max))
    case Date => Scalar(DateType)
    case DateTime => Scalar(TimestampType)
    case Timestamp => Scalar(TimestampType)
    case Binary => Scalar(BytesType(Fixed(255)))
    case Json => Scalar(JsonType)
    case IntegerArray => ArrayOf(Int64Type)
    case BooleanArray => ArrayOf(BoolType)
    case FloatArray => ArrayOf(Float64Type)
    case DecimalArray => ArrayOf(NumericType)
    case StringArray(l) => ArrayOf(StringType(if l.Some? then l.value else Fixed(DefaultStringLength)))
    case DateArray => ArrayOf(DateType)
    case TimestampArray => ArrayOf(TimestampType)
  }

  // ---- spelling a type -------------------------------------------------------

  function LengthSql(l: Length): string {
    match l
    case Max => "max"
    case Fixed(n) => NatToString(n)
  }

  function ParseLength(s: string): Option<Length> {
    if s == "max" then Some(Max)
    else if |s| >= 1 && IsDigits(s) then Some(Fixed(ParseNat(s)))
    else None
  }

  lemma ParseLengthRoundTrip(l: Length)
    ensures ParseLength(LengthSql(l)) == Some(l)
  {
    if l.Fixed? {
      var s := NatToString(l.n);
      assert IsDigit(s[0]);
      assert s != "max" by {
        assert "max"[0] == 'm';
      }
      ParseNatOfNatToString(l.n);
    }
  }

  function ScalarSql(t: ScalarType): string {
    match t
    case BoolType => "bool"
    case Int64Type => "int64"
    case Float64Type => "float64"
    case NumericType => "numeric"
    case StringType(l) => "string(" + LengthSql(l) + ")"
    case BytesType(l) => "bytes(" + LengthSql(l) + ")"
    case DateType => "date"
    case TimestampType => "timestamp"
    case JsonType => "json"
  }

  /** The type as written in a column definition, e.g. `array<string(255)>`. */
  function TypeSql(t: ColumnType): (r: string)
    ensures t.ArrayOf? <==> (|r| >= 6 && r[..6] == "array<")
  {
    match t
    case Scalar(s) =>
      assert ScalarSql(s)[0] != 'a';
      ScalarSql(s)
    case ArrayOf(e) => "array<" + ScalarSql(e) + ">"
  }

  /** Reads `<prefix>(<length>)`. */
  function ParseSized(s: string, prefix: string): Option<Length> {
    if |s| >= |prefix| + 2 && s[..|prefix|] == prefix && s[|prefix|] == '(' && s[|s| - 1] == ')'
    then ParseLength(s[|prefix| + 1..|s| - 1])
    else None
  }

  function ParseScalar(s: string): Option<ScalarType> {
    if ParseSized(s, "string").Some? then Some(StringType(ParseSized(s, "string").value))
    else if ParseSized(s, "bytes").Some? then Some(BytesType(ParseSized(s, "bytes").value))
    else if s == "bool" then Some(BoolType)
    else if s == "int64" then Some(Int64Type)
    else if s == "float64" then Some(Float64Type)
    else if s == "numeric" then Some(NumericType)
    else if s == "date" then Some(DateType)
    else if s == "timestamp" then Some(TimestampType)
    else if s == "json" then Some(JsonType)
    else None
  }

  function ParseType(s: string): Option<ColumnType> {
    if |s| >= 7 && s[..6] == "array<" && s[|s| - 1] == '>' then
      match ParseScalar(s[6..|s| - 1])
      case Some(e) => Some(ArrayOf(e))
      case None => None
    else
      match ParseScalar(s)
      case Some(t) => Some(Scalar(t))
      case None => None
  }

  lemma ParseSizedOf(prefix: string, l: Length)
    ensures ParseSized(prefix + "(" + LengthSql(l) + ")", prefix) == Some(l)
  {
    var s := prefix + "(" + LengthSql(l) + ")";
    assert s[..|prefix|] == prefix;
    assert s[|prefix| + 1..|s| - 1] == LengthSql(l);
    ParseLengthRoundTrip(l);
  }

  lemma ParseBytesRoundTrip(l: Length)
    ensures ParseScalar(ScalarSql(BytesType(l))) == Some(BytesType(l))
  {
    var s := ScalarSql(BytesType(l));
    ParseSizedOf("bytes", l);
    assert ParseSized(s, "string").None? by {
      if |s| >= 8 {
        assert s[..6][0] == 'b';
      }
    }
  }

  lemma ParseScalarRoundTrip(t: ScalarType)
    ensures ParseScalar(ScalarSql(t)) == Some(t)
  {
    match t
    case StringType(l) => ParseSizedOf("string", l);
    case BytesType(l) => ParseBytesRoundTrip(l);
    case _ =>
  }

  /** Distinct types are spelled differently: the spelling reads back as the type. */
  lemma ParseTypeRoundTrip(t: ColumnType)
    ensures ParseType(TypeSql(t)) == Some(t)
  {
    var s := TypeSql(t);
    match t
    case Scalar(e) =>
      ParseScalarRoundTrip(e);
      assert !(|s| >= 7 && s[..6] == "array<");
    case ArrayOf(e) =>
      ParseScalarRoundTrip(e);
      assert s[6..|s| - 1] == ScalarSql(e);
  }

  // ---- default literals ------------------------------------------------------

  function Mismatch<T>(t: ColumnType, v: Value): Result<T> {
    Err(TypeMismatch("default value does not fit column type " + TypeSql(t)))
  }

  /** The literal of a default value for one scalar type. A raw expression is
      always written verbatim; a string longer than a bounded `string(n)` and a
      value of the wrong shape are refused. */
  function ScalarDefault(t: ScalarType, v: Value): (r: Result<string>)
    ensures r.Err? ==> r.error.TypeMismatch?
  {
    match v
    case VRaw(e) => Ok(e)
    case VBool(b) => if t.BoolType? then Ok(BoolLiteral(b)) else Mismatch(Scalar(t), v)
    case VInt(i) =>
      if t.Int64Type? || t.Float64Type? || t.NumericType? then Ok(IntToString(i)) else Mismatch(Scalar(t), v)
    case VDecimal(x) => if t.Float64Type? || t.NumericType? then Ok(x) else Mismatch(Scalar(t), v)
    case VString(s) =>
      if t.StringType? && (t.length.Max? || |s| <= t.length.n) then Ok(QuoteString(s)) else Mismatch(Scalar(t), v)
    case VInstant(at) =>
      if t.DateType? then Ok(DateLiteral(at))
      else if t.TimestampType? then Ok(TimestampLiteral(at))
      else Mismatch(Scalar(t), v)
    case VArray(_) => Mismatch(Scalar(t), v)
  }

  function ElementDefaults(e: ScalarType, elems: seq<Value>): (r: Result<seq<string>>)
    ensures r.Err? ==> r.error.TypeMismatch?
    ensures r.Ok? ==> |r.value| == |elems|
    decreases |elems|
  {
    if elems == [] then Ok([])
    else
      var h :- ScalarDefault(e, elems[0]);
      var rest :- ElementDefaults(e, elems[1..]);
      Ok([h] + rest)
  }

  /** The literal inside `default (…)`: arrays as `[a, b]` of element literals. */
  function DefaultLiteral(t: ColumnType, v: Value): (r: Result<string>)
    ensures r.Err? ==> r.error.TypeMismatch?
    ensures v.VRaw? ==> r == Ok(v.expr)
  {
    match t
    case Scalar(s) => ScalarDefault(s, v)
    case ArrayOf(e) =>
      match v
      case VRaw(x) => Ok(x)
      case VArray(elems) =>
        var ls :- ElementDefaults(e, elems);
        Ok("[" + Join(ls, ", ") + "]")
      case _ => Mismatch(t, v)
  }

  /** A bounded string column takes a string default exactly when it fits. */
  lemma StringDefaultFits(n: nat, s: string)
    ensures DefaultLiteral(Scalar(StringType(Fixed(n))), VString(s)).Ok? <==> |s| <= n
    ensures |s| <= n ==> DefaultLiteral(Scalar(StringType(Fixed(n))), VString(s)) == Ok(QuoteString(s))
    ensures |s| > n ==> DefaultLiteral(Scalar(StringType(Fixed(n))), VString(s)).error.TypeMismatch?
  {
  }

  /** UnquoteString reads a string default back as the string. */
  lemma StringDefaultRoundTrip(l: Length, s: string)
    requires l.Max? || |s| <= l.n
    ensures DefaultLiteral(Scalar(StringType(l)), VString(s)).Ok?
    ensures UnquoteString(DefaultLiteral(Scalar(StringType(l)), VString(s)).value) == Some(s)
  {
    QuoteStringRoundTrip(s);
  }

  /** A date column writes its default as `DATE "YYYY-MM-DD"`, whose fields read back. */
  lemma DateDefaultRoundTrip(at: Instant)
    requires ValidInstant(at)
    ensures var r := DefaultLiteral(Scalar(DateType), VInstant(at));
      && r.Ok? && |r.value| == 17 && r.value[..6] == "DATE \"" && r.value[16] == '"'
      && ParseDateFields(r.value[6..16]) == Some((at.year, at.month, at.day))
  {
    var r := DefaultLiteral(Scalar(DateType), VInstant(at)).value;
    assert r[6..16] == DateText(at);
    DateTextFields(at);
  }

  predicate HasDate(t: ColumnType) {
    (t.Scalar? && t.scalar.DateType?) || (t.ArrayOf? && t.elem.DateType?)
  }

  lemma {:induction false} ScalarDefaultIsLiteral(t: ScalarType, v: Value)
    requires !t.DateType? && ScalarDefault(t, v).Ok?
    ensures ScalarDefault(t, v).value == Literal(v)
  {
  }

  lemma {:induction false} ElementDefaultsAreLiterals(e: ScalarType, elems: seq<Value>)
    requires !e.DateType? && ElementDefaults(e, elems).Ok?
    ensures ElementDefaults(e, elems).value == seq(|elems|, k requires 0 <= k < |elems| => Literal(elems[k]))
    decreases |elems|
  {
    if elems != [] {
      ScalarDefaultIsLiteral(e, elems[0]);
      ElementDefaultsAreLiterals(e, elems[1..]);
      var rest := seq(|elems| - 1, k requires 0 <= k < |elems| - 1 => Literal(elems[1..][k]));
      assert seq(|elems|, k requires 0 <= k < |elems| => Literal(elems[k])) == [Literal(elems[0])] + rest;
    }
  }

  /** Outside date columns, a default is written exactly as the query side's
      `toRawSql` inlines the same value; dates differ only in being `DATE "…"`. */
  lemma DefaultIsQueryLiteral(t: ColumnType, v: Value)
    requires !HasDate(t) && DefaultLiteral(t, v).Ok?
    ensures DefaultLiteral(t, v).value == Literal(v)
  {
    match t
    case Scalar(s) => ScalarDefaultIsLiteral(s, v);
    case ArrayOf(e) =>
      if v.VArray? {
        ElementDefaultsAreLiterals(e, v.elems);
      }
  }

  /** Every array element must fit the element type: one misfit refuses the whole default. */
  lemma {:induction false} ElementDefaultsFailIffMisfit(e: ScalarType, elems: seq<Value>)
    ensures ElementDefaults(e, elems).Err? <==> exists k :: 0 <= k < |elems| && ScalarDefault(e, elems[k]).Err?
    decreases |elems|
  {
    if elems != [] {
      ElementDefaultsFailIffMisfit(e, elems[1..]);
      if ScalarDefault(e, elems[0]).Ok? && ElementDefaults(e, elems[1..]).Err? {
        var k :| 0 <= k < |elems[1..]| && ScalarDefault(e, elems[1..][k]).Err?;
        assert ScalarDefault(e, elems[k + 1]).Err?;
      }
      if ScalarDefault(e, elems[0]).Ok? && ElementDefaults(e, elems[1..]).Ok? {
        forall k | 0 <= k < |elems|
          ensures ScalarDefault(e, elems[k]).Ok?
        {
          if k > 0 {
            assert elems[k] == elems[1..][k - 1];
          }
        }
      }
    }
  }
}
