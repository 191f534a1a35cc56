/** The value codec: how a host value is written as an inline Cloud Spanner
    (GoogleSQL) literal. `Literal` is what `toRawSql` substitutes for a bound
    parameter; the schema synthesizer uses the same string, date and timestamp
    formats for column defaults. */
module Codec {
  import opened Text
  import opened Common

  /** A point in time, already normalised to UTC (the driver converts Carbon
      values to UTC before formatting them). */
  datatype Instant = Instant(year: nat, month: nat, day: nat,
                             hour: nat, minute: nat, second: nat, micros: nat)

  predicate ValidInstant(t: Instant) {
    && 1 <= t.year <= 9999 && 1 <= t.month <= 12 && 1 <= t.day <= 31
    && t.hour < 24 && t.minute < 60 && t.second < 60 && t.micros < 1000000
  }

  /** Host values that can be bound to a query or used as a column default.
      Floats are carried as their PHP text (`VDecimal("1.1")`); `VRaw` is a
      `DB::raw` expression, written out verbatim. */
  datatype Value =
    | VBool(b: bool)
    | VInt(i: int)
    | VDecimal(text: string)
    | VString(s: string)
    | VInstant(at: Instant)
    | VArray(elems: seq<Value>)
    | VRaw(expr: string)

  // ---- strings ---------------------------------------------------------------

  /** Puts a backslash in front of every double quote; every other character,
      the single quote included, is kept as it is. */
  function EscapeQuotes(s: string): (r: string)
    ensures '"' !in s ==> r == s
    decreases |s|
  {
    if s == [] then []
    else (if s[0] == '"' then ['\\', '"'] else [s[0]]) + EscapeQuotes(s[1..])
  }

  /** Reads back an escaped body: `\"` stands for `"`, every other character for itself. */
  function Unescape(e: string): string
    decreases |e|
  {
    if e == [] then []
    else if |e| >= 2 && e[0] == '\\' && e[1] == '"' then ['"'] + Unescape(e[2..])
    else [e[0]] + Unescape(e[1..])
  }

  /** A string literal: `"…"`, or the triple-quoted raw form `r"""…"""` when the
      string holds a newline (the newline is kept verbatim); in both forms each
      `"` of the string is backslash-escaped. */
  function QuoteString(s: string): (r: string)
    ensures '\n' in s <==> (|r| >= 1 && r[0] == 'r')
    ensures '\n' in s ==> |r| >= 7 && r[..4] == "r\"\"\"" && r[|r| - 3..] == "\"\"\""
    ensures '\n' !in s ==> |r| >= 2 && r[0] == '"' && r[|r| - 1] == '"'
  {
    if '\n' in s then "r\"\"\"" + EscapeQuotes(s) + "\"\"\""
    else "\"" + EscapeQuotes(s) + "\""
  }

  /** Strips either literal form and unescapes its body. */
  function UnquoteString(r: string): Option<string> {
    if |r| >= 7 && r[..4] == "r\"\"\"" && r[|r| - 3..] == "\"\"\"" then Some(Unescape(r[4..|r| - 3]))
    else if |r| >= 2 && r[0] == '"' && r[|r| - 1] == '"' then Some(Unescape(r[1..|r| - 1]))
    else None
  }

  /** An escaped body never begins with a bare double quote. */
  lemma {:induction false} EscapeQuotesHead(s: string)
    requires s != []
    ensures EscapeQuotes(s) != [] && EscapeQuotes(s)[0] != '"'
  {
  }

  lemma {:induction false} UnescapeEscapeQuotes(s: string)
    ensures Unescape(EscapeQuotes(s)) == s
    decreases |s|
  {
    if s != [] {
      var rest := EscapeQuotes(s[1..]);
      var e := EscapeQuotes(s);
      UnescapeEscapeQuotes(s[1..]);
      if s[0] == '"' {
        assert e == ['\\', '"'] + rest;
        assert e[2..] == rest;
      } else {
        assert e == [s[0]] + rest;
        assert e[1..] == rest;
        if s[0] == '\\' && |s| > 1 {
          EscapeQuotesHead(s[1..]);
        }
      }
    }
  }

  /** Escaping works character by character, so it distributes over concatenation. */
  lemma {:induction false} EscapeQuotesAppend(a: string, b: string)
    ensures EscapeQuotes(a + b) == EscapeQuotes(a) + EscapeQuotes(b)
    decreases |a|
  {
    if a == [] {
      assert a + b == b;
    } else {
      assert (a + b)[0] == a[0];
      assert (a + b)[1..] == a[1..] + b;
      EscapeQuotesAppend(a[1..], b);
    }
  }

  /** Inside an escaped body every double quote has a backslash immediately
      before it. */
  lemma {:induction false} EscapedQuotesArePreceded(s: string)
    ensures forall i :: 0 <= i < |EscapeQuotes(s)| && EscapeQuotes(s)[i] == '"' ==>
      i > 0 && EscapeQuotes(s)[i - 1] == '\\'
    decreases |s|
  {
    if s != [] {
      EscapedQuotesArePreceded(s[1..]);
      var rest := EscapeQuotes(s[1..]);
      var head: string := if s[0] == '"' then ['\\', '"'] else [s[0]];
      var e := EscapeQuotes(s);
      assert e == head + rest;
      forall i | 0 <= i < |e| && e[i] == '"'
        ensures i > 0 && e[i - 1] == '\\'
      {
        if i >= |head| {
          var j := i - |head|;
          assert rest[j] == '"';
          assert j > 0 && rest[j - 1] == '\\';
          assert e[i - 1] == rest[j - 1];
        }
      }
    }
  }

  /** Quoting loses nothing: UnquoteString reads the literal back as the original string. */
  lemma QuoteStringRoundTrip(s: string)
    ensures UnquoteString(QuoteString(s)) == Some(s)
  {
    var r := QuoteString(s);
    var e := EscapeQuotes(s);
    UnescapeEscapeQuotes(s);
    if '\n' in s {
      assert r[4..|r| - 3] == e;
    } else {
      assert r[1..|r| - 1] == e;
      assert !(|r| >= 7 && r[..4] == "r\"\"\"") by {
        if |r| >= 7 {
          assert r[..4][0] == r[0];
        }
      }
    }
  }

  // ---- dates and timestamps --------------------------------------------------

  /** `YYYY-MM-DD`. */
  function DateText(t: Instant): (r: string)
    ensures |r| == 10 && r[4] == '-' && r[7] == '-'
  {
    Pad(t.year, 4) + "-" + Pad(t.month, 2) + "-" + Pad(t.day, 2)
  }

  /** Where each field of a timestamp sits: the date, `T`, the three clock
      fields separated by `:`, `.`, the microseconds, then the UTC offset. */
  lemma TimestampPieces(d: string, h: string, mi: string, se: string, mu: string)
    requires |d| == 10 && |h| == 2 && |mi| == 2 && |se| == 2 && |mu| == 6
    ensures var r := d + "T" + h + ":" + mi + ":" + se + "." + mu + "+00:00";
      && |r| == 32 && r[..10] == d && r[10] == 'T' && r[11..13] == h && r[13] == ':'
      && r[14..16] == mi && r[16] == ':' && r[17..19] == se && r[19] == '.'
      && r[20..26] == mu && r[26..] == "+00:00"
  {
    var a := d + "T" + h + ":";
    assert a[..10] == d && a[10] == 'T' && a[11..13] == h && a[13] == ':';
    var b := a + mi + ":" + se + ".";
    assert b[..14] == a && b[14..16] == mi && b[16] == ':' && b[17..19] == se && b[19] == '.';
    var r := b + mu + "+00:00";
    assert r[..20] == b && r[20..26] == mu && r[26..] == "+00:00";
    assert r[..10] == b[..10];
    assert b[..10] == a[..10];
    assert r[11..13] == b[11..13] == a[11..13];
  }

  /** `YYYY-MM-DDTHH:MM:SS.ffffff+00:00`: microsecond precision, explicit UTC offset. */
  function TimestampText(t: Instant): (r: string)
    ensures |r| == 32 && r[..10] == DateText(t) && r[26..] == "+00:00"
  {
    TimestampPieces(DateText(t), Pad(t.hour, 2), Pad(t.minute, 2), Pad(t.second, 2), Pad(t.micros, 6));
    DateText(t) + "T" + Pad(t.hour, 2) + ":" + Pad(t.minute, 2) + ":" + Pad(t.second, 2)
    + "." + Pad(t.micros, 6) + "+00:00"
  }

  function ParseDateFields(s: string): Option<(nat, nat, nat)> {
    if |s| == 10 && s[4] == '-' && s[7] == '-'
       && IsDigits(s[0..4]) && IsDigits(s[5..7]) && IsDigits(s[8..10])
    then Some((ParseNat(s[0..4]), ParseNat(s[5..7]), ParseNat(s[8..10])))
    else None
  }

  /** Reads a `TimestampText`; `None` for any other shape or an out-of-range field. */
  function ParseTimestamp(s: string): Option<Instant> {
    if |s| == 32 && s[10] == 'T' && s[13] == ':' && s[16] == ':' && s[19] == '.'
       && s[26..] == "+00:00" && ParseDateFields(s[..10]).Some?
       && IsDigits(s[11..13]) && IsDigits(s[14..16]) && IsDigits(s[17..19]) && IsDigits(s[20..26])
    then
      var (y, m, d) := ParseDateFields(s[..10]).value;
      var t := Instant(y, m, d, ParseNat(s[11..13]), ParseNat(s[14..16]), ParseNat(s[17..19]),
                       ParseNat(s[20..26]));
      if ValidInstant(t) then Some(t) else None
    else None
  }

  lemma DateTextFields(t: Instant)
    requires ValidInstant(t)
    ensures ParseDateFields(DateText(t)) == Some((t.year, t.month, t.day))
  {
    var r := DateText(t);
    assert r[0..4] == Pad(t.year, 4);
    assert r[5..7] == Pad(t.month, 2);
    assert r[8..10] == Pad(t.day, 2);
    ParseNatOfPad(t.year, 4);
    ParseNatOfPad(t.month, 2);
    ParseNatOfPad(t.day, 2);
  }

  /** The timestamp format is read back exactly, for every valid instant. */
  lemma TimestampTextRoundTrip(t: Instant)
    requires ValidInstant(t)
    ensures ParseTimestamp(TimestampText(t)) == Some(t)
  {
    TimestampPieces(DateText(t), Pad(t.hour, 2), Pad(t.minute, 2), Pad(t.second, 2), Pad(t.micros, 6));
    DateTextFields(t);
    ParseNatOfPad(t.hour, 2);
    ParseNatOfPad(t.minute, 2);
    ParseNatOfPad(t.second, 2);
    ParseNatOfPad(t.micros, 6);
  }

  // ---- literals --------------------------------------------------------------

  function BoolLiteral(b: bool): string {
    if b then "true" else "false"
  }

  function DateLiteral(t: Instant): string {
    "DATE \"" + DateText(t) + "\""
  }

  function TimestampLiteral(t: Instant): string {
    "TIMESTAMP \"" + TimestampText(t) + "\""
  }

  /** The inline literal of a bound value, as `toRawSql` writes it. */
  function Literal(v: Value): string
    decreases v
  {
    match v
    case VBool(b) => BoolLiteral(b)
    case VInt(i) => IntToString(i)
    case VDecimal(text) => text
    case VString(s) => QuoteString(s)
    case VInstant(t) => TimestampLiteral(t)
    case VArray(elems) => "[" + Join(seq(|elems|, k requires 0 <= k < |elems| => Literal(elems[k])), ", ") + "]"
    case VRaw(expr) => expr
  }

  /** An integer is written as its digits, which read back as the integer. */
  lemma IntLiteralRoundTrip(i: int)
    ensures ParseInt(Literal(VInt(i))) == i
  {
    IntToStringRoundTrip(i);
  }

  /** UnquoteString reads a string literal back as the string, whichever form it takes. */
  lemma StringLiteralRoundTrip(s: string)
    ensures UnquoteString(Literal(VString(s))) == Some(s)
  {
    QuoteStringRoundTrip(s);
  }

  /** A timestamp is written as `TIMESTAMP "<TimestampText>"`, whose text reads back as the instant. */
  lemma InstantLiteralRoundTrip(t: Instant)
    requires ValidInstant(t)
    ensures var l := Literal(VInstant(t));
      |l| == 44 && l[..11] == "TIMESTAMP \"" && l[43] == '"' && ParseTimestamp(l[11..43]) == Some(t)
  {
    QuotedTimestamp(TimestampText(t));
    TimestampTextRoundTrip(t);
  }

  /** Where the text sits inside `TIMESTAMP "<text>"`. */
  lemma QuotedTimestamp(x: string)
    requires |x| == 32
    ensures var l := "TIMESTAMP \"" + x + "\"";
      |l| == 44 && l[..11] == "TIMESTAMP \"" && l[43] == '"' && l[11..43] == x
  {
    var a := "TIMESTAMP \"" + x;
    assert a[..11] == "TIMESTAMP \"" && a[11..] == x;
  }
}
