/** Text helpers shared by both renderers: joining, identifier quoting, decimal
    digits (free-width and zero-padded) and ASCII lower-casing, each with the
    parser or property that pins it down. */
module Text {
  import opened Common

  /** Joins `parts` with `sep` between neighbours, as PHP's implode does. */
  function Join(parts: seq<string>, sep: string): string
    decreases |parts|
  {
    if |parts| == 0 then ""
    else if |parts| == 1 then parts[0]
    else parts[0] + sep + Join(parts[1..], sep)
  }

  /** Back-quotes an identifier. The driver quotes every table, column and index
      name, unconditionally. */
  function Wrap(name: string): string {
    "`" + name + "`"
  }

  /** A wrapped name starts and ends with a back-quote and holds the name unchanged between them. */
  lemma WrapQuotes(name: string)
    ensures var r := Wrap(name);
      |r| == |name| + 2 && r[0] == '`' && r[|r| - 1] == '`' && r[1..|r| - 1] == name
  {
    var r := Wrap(name);
    assert r == ("`" + name) + "`";
    assert ("`" + name)[1..] == name;
  }

  /** Back-quotes every name of a column list, keeping the order. */
  function WrapAll(names: seq<string>): (r: seq<string>)
    ensures |r| == |names|
    ensures forall i :: 0 <= i < |names| ==> r[i] == Wrap(names[i])
  {
    seq(|names|, i requires 0 <= i < |names| => Wrap(names[i]))
  }

  /** `(`a`, `b`)` style list used by primary keys, index keys and storing clauses. */
  function Columnize(names: seq<string>): string {
    Join(WrapAll(names), ", ")
  }

  /** The name inside a back-quoted identifier, if `w` is one. */
  function Unwrap(w: string): Option<string> {
    if |w| >= 2 && w[0] == '`' && w[|w| - 1] == '`' then Some(w[1..|w| - 1]) else None
  }

  /** Back-quoting loses nothing: the name is recovered from its quoted form. */
  lemma UnwrapWrap(name: string)
    ensures Unwrap(Wrap(name)) == Some(name)
  {
    WrapQuotes(name);
  }

  /** Joining two non-empty lists puts one separator between their joins. */
  lemma {:induction false} JoinAppend(a: seq<string>, b: seq<string>, sep: string)
    requires a != [] && b != []
    ensures Join(a + b, sep) == Join(a, sep) + sep + Join(b, sep)
    decreases |a|
  {
    if |a| == 1 {
      assert (a + b)[1..] == b;
    } else {
      assert (a + b)[1..] == a[1..] + b;
      JoinAppend(a[1..], b, sep);
    }
  }

  lemma WrapAllAppend(a: seq<string>, b: seq<string>)
    ensures WrapAll(a + b) == WrapAll(a) + WrapAll(b)
  {
  }

  /** A single key column is listed as its quoted name alone. */
  lemma ColumnizeOne(name: string)
    ensures Columnize([name]) == Wrap(name)
  {
    assert WrapAll([name]) == [Wrap(name)];
  }

  /** Listing the columns of `a + b` lists those of `a`, a comma, then those of `b`,
      so the key columns keep the order they were given in. */
  lemma ColumnizeAppend(a: seq<string>, b: seq<string>)
    requires a != [] && b != []
    ensures Columnize(a + b) == Columnize(a) + ", " + Columnize(b)
  {
    WrapAllAppend(a, b);
    JoinAppend(WrapAll(a), WrapAll(b), ", ");
  }

  // ---- decimal digits ------------------------------------------------------

  predicate IsDigit(c: char) {
    '0' <= c <= '9'
  }

  predicate IsDigits(s: string) {
    forall i :: 0 <= i < |s| ==> IsDigit(s[i])
  }

  function DigitChar(d: nat): (c: char)
    requires d < 10
    ensures IsDigit(c)
  {
    (48 + d) as char
  }

  function DigitValue(c: char): (d: nat)
    ensures d < 10
    ensures IsDigit(c) ==> DigitChar(d) == c
  {
    if IsDigit(c) then (c as int - 48) else 0
  }

  /** The decimal representation of `n` without leading zeros. */
  function NatToString(n: nat): (s: string)
    ensures |s| >= 1 && IsDigits(s)
    ensures |s| > 1 ==> s[0] != '0'
    decreases n
  {
    if n < 10 then [DigitChar(n)] else NatToString(n / 10) + [DigitChar(n % 10)]
  }

  /** Reads the value of a run of decimal digits (non-digits count as 0). */
  function ParseNat(s: string): nat
    decreases |s|
  {
    if |s| == 0 then 0 else 10 * ParseNat(s[..|s| - 1]) + DigitValue(s[|s| - 1])
  }

  lemma {:induction false} ParseNatOfNatToString(n: nat)
    ensures ParseNat(NatToString(n)) == n
    decreases n
  {
    var s := NatToString(n);
    if n >= 10 {
      ParseNatOfNatToString(n / 10);
      assert s[..|s| - 1] == NatToString(n / 10);
    }
  }

  /** PHP's (string) cast of an integer: an optional minus sign and the digits. */
  function IntToString(i: int): (s: string)
    ensures |s| >= 1
  {
    if i < 0 then "-" + NatToString(-i) else NatToString(i)
  }

  function ParseInt(s: string): int {
    if |s| > 0 && s[0] == '-' then -(ParseNat(s[1..]) as int) else ParseNat(s)
  }

  lemma IntToStringRoundTrip(i: int)
    ensures ParseInt(IntToString(i)) == i
  {
    var s := IntToString(i);
    if i < 0 {
      assert s[1..] == NatToString(-i);
      ParseNatOfNatToString(-i);
    } else {
      ParseNatOfNatToString(i);
    }
  }

  function Pow10(w: nat): (p: nat)
    ensures p >= 1
  {
    if w == 0 then 1 else 10 * Pow10(w - 1)
  }

  /** The last `w` decimal digits of `n`, zero-padded to exactly `w` characters
      (used by the date and timestamp formats, e.g. month 1 as "01"). */
  function Pad(n: nat, w: nat): (s: string)
    ensures |s| == w && IsDigits(s)
    decreases w
  {
    if w == 0 then "" else Pad(n / 10, w - 1) + [DigitChar(n % 10)]
  }

  lemma {:induction false} ParseNatOfPad(n: nat, w: nat)
    requires n < Pow10(w)
    ensures ParseNat(Pad(n, w)) == n
    decreases w
  {
    if w > 0 {
      var s := Pad(n, w);
      ParseNatOfPad(n / 10, w - 1);
      assert s[..|s| - 1] == Pad(n / 10, w - 1);
    }
  }

  // ---- ASCII case ----------------------------------------------------------

  predicate IsUpper(c: char) {
    'A' <= c <= 'Z'
  }

  function LowerChar(c: char): (r: char)
    ensures !IsUpper(r)
    ensures !IsUpper(c) ==> r == c
  {
    if IsUpper(c) then (c as int + 32) as char else c
  }

  /** PHP's strtolower on ASCII text. */
  function Lower(s: string): (r: string)
    ensures |r| == |s|
    ensures forall i :: 0 <= i < |r| ==> !IsUpper(r[i])
    ensures forall i :: 0 <= i < |r| ==> r[i] == LowerChar(s[i])
  {
    seq(|s|, i requires 0 <= i < |s| => LowerChar(s[i]))
  }

  predicate IsLowerCase(s: string) {
    forall i :: 0 <= i < |s| ==> !IsUpper(s[i])
  }

  lemma LowerAppend(a: string, b: string)
    ensures Lower(a + b) == Lower(a) + Lower(b)
  {
    assert forall i :: 0 <= i < |a + b| ==> Lower(a + b)[i] == (Lower(a) + Lower(b))[i];
  }

  lemma LowerOfLowerCase(s: string)
    requires IsLowerCase(s)
    ensures Lower(s) == s
  {
  }
}
