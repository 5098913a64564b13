/** The leaves of canonical JSON: strings and numbers as `JSON.stringify` prints them, and readers that
    recover them from the front of a longer text (src/remote/crypto.ts prints both with JSON.stringify).

    Text is a sequence of UTF-16 code units, as in JavaScript. Numbers are integers. */
module JsonText {
  import opened Options

  type CodeUnit = u: int | 0 <= u < 0x1_0000
  type Text = seq<CodeUnit>

  const QUOTE: CodeUnit := 0x22
  const COMMA: CodeUnit := 0x2c
  const MINUS: CodeUnit := 0x2d
  const COLON: CodeUnit := 0x3a
  const OPEN_BRACKET: CodeUnit := 0x5b
  const BACKSLASH: CodeUnit := 0x5c
  const CLOSE_BRACKET: CodeUnit := 0x5d
  const LOWER_U: CodeUnit := 0x75
  const OPEN_BRACE: CodeUnit := 0x7b
  const CLOSE_BRACE: CodeUnit := 0x7d

  // ---------------------------------------------------------------------------------------------
  // Strings
  // ---------------------------------------------------------------------------------------------

  predicate IsHighSurrogate(u: CodeUnit) { 0xd800 <= u < 0xdc00 }

  predicate IsLowSurrogate(u: CodeUnit) { 0xdc00 <= u < 0xe000 }

  predicate IsSurrogate(u: CodeUnit) { 0xd800 <= u < 0xe000 }

  /** Lower-case hexadecimal digit. */
  function HexDigit(d: int): CodeUnit
    requires 0 <= d < 16
  {
    if d < 10 then 0x30 + d else 0x57 + d
  }

  function HexValue(u: CodeUnit): Option<int> {
    if 0x30 <= u < 0x3a then Some(u - 0x30)
    else if 0x61 <= u < 0x67 then Some(u - 0x57)
    else None
  }

  lemma HexRoundTrip(d: int)
    requires 0 <= d < 16
    ensures HexValue(HexDigit(d)) == Some(d)
  {
  }

  function FourHexDigits(u: CodeUnit): (t: Text)
    ensures |t| == 4
  {
    [HexDigit(u / 4096), HexDigit(u / 256 % 16), HexDigit(u / 16 % 16), HexDigit(u % 16)]
  }

  function UnicodeEscape(u: CodeUnit): Text {
    [BACKSLASH, LOWER_U] + FourHexDigits(u)
  }

  /** The letter after the backslash of a two-character escape. */
  function ShortEscape(u: CodeUnit): Option<CodeUnit> {
    if u == QUOTE then Some(QUOTE)
    else if u == BACKSLASH then Some(BACKSLASH)
    else if u == 8 then Some(0x62)
    else if u == 9 then Some(0x74)
    else if u == 10 then Some(0x6e)
    else if u == 12 then Some(0x66)
    else if u == 13 then Some(0x72)
    else None
  }

  function ShortEscaped(letter: CodeUnit): Option<CodeUnit> {
    if letter == QUOTE then Some(QUOTE)
    else if letter == BACKSLASH then Some(BACKSLASH)
    else if letter == 0x62 then Some(8)
    else if letter == 0x74 then Some(9)
    else if letter == 0x6e then Some(10)
    else if letter == 0x66 then Some(12)
    else if letter == 0x72 then Some(13)
    else None
  }

  function EscapedUnit(u: CodeUnit): Text {
    if ShortEscape(u).Some? then [BACKSLASH, ShortEscape(u).value]
    else if u < 0x20 || IsSurrogate(u) then UnicodeEscape(u)
    else [u]
  }

  /** Surrogate pairs pass through; a lone surrogate is escaped. */
  function Escaped(s: Text): Text {
    if s == [] then []
    else if |s| >= 2 && IsHighSurrogate(s[0]) && IsLowSurrogate(s[1]) then s[..2] + Escaped(s[2..])
    else EscapedUnit(s[0]) + Escaped(s[1..])
  }

  function Quoted(s: Text): Text {
    [QUOTE] + Escaped(s) + [QUOTE]
  }

  datatype Read<+T> = Read(value: T, rest: Text)

  function ReadUnicodeEscape(t: Text): Option<CodeUnit>
    requires |t| >= 4
  {
    var a, b, c, d := HexValue(t[0]), HexValue(t[1]), HexValue(t[2]), HexValue(t[3]);
    if a.Some? && b.Some? && c.Some? && d.Some?
    then
      HexBound(t[0]); HexBound(t[1]); HexBound(t[2]); HexBound(t[3]);
      Some(a.value * 4096 + b.value * 256 + c.value * 16 + d.value)
    else None
  }

  lemma HexBound(u: CodeUnit)
    ensures HexValue(u).Some? ==> 0 <= HexValue(u).value < 16
  {
  }

  /** The rest of a string literal, up to and including its closing quote. */
  function ReadString(t: Text): (r: Option<Read<Text>>)
    ensures r.Some? ==> |r.value.rest| < |t|
    decreases |t|
  {
    if t == [] then None
    else if t[0] == QUOTE then Some(Read([], t[1..]))
    else if t[0] != BACKSLASH then Prepend(t[0], ReadString(t[1..]))
    else if |t| < 2 then None
    else if ShortEscaped(t[1]).Some? then Prepend(ShortEscaped(t[1]).value, ReadString(t[2..]))
    else if t[1] == LOWER_U && |t| >= 6 && ReadUnicodeEscape(t[2..6]).Some? then
      Prepend(ReadUnicodeEscape(t[2..6]).value, ReadString(t[6..]))
    else None
  }

  function Prepend(u: CodeUnit, r: Option<Read<Text>>): Option<Read<Text>> {
    if r.None? then None else Some(Read([u] + r.value.value, r.value.rest))
  }

  lemma UnicodeRoundTrip(u: CodeUnit)
    ensures ReadUnicodeEscape(FourHexDigits(u)) == Some(u)
  {
    HexRoundTrip(u / 4096);
    HexRoundTrip(u / 256 % 16);
    HexRoundTrip(u / 16 % 16);
    HexRoundTrip(u % 16);
    HexSum(u);
  }

  lemma HexSum(u: CodeUnit)
    ensures u == u / 4096 * 4096 + u / 256 % 16 * 256 + u / 16 % 16 * 16 + u % 16
  {
    assert u / 256 == u / 4096 * 16 + u / 256 % 16;
    assert u / 16 == u / 256 * 16 + u / 16 % 16;
  }

  lemma ShortRoundTrip(u: CodeUnit, t: Text)
    requires ShortEscape(u).Some?
    ensures ReadString([BACKSLASH, ShortEscape(u).value] + t) == Prepend(u, ReadString(t))
  {
    var text := [BACKSLASH, ShortEscape(u).value] + t;
    assert text[2..] == t;
    assert text[1] == ShortEscape(u).value && ShortEscaped(text[1]) == Some(u);
  }

  lemma LongParts(u: CodeUnit, t: Text)
    ensures var text := UnicodeEscape(u) + t;
            && |text| >= 6 && text[0] == BACKSLASH && text[1] == LOWER_U
            && text[2..6] == FourHexDigits(u) && text[6..] == t
  {
    hide FourHexDigits;
  }

  lemma LongRoundTrip(u: CodeUnit, t: Text)
    ensures ReadString(UnicodeEscape(u) + t) == Prepend(u, ReadString(t))
  {
    UnicodeRoundTrip(u);
    var text := UnicodeEscape(u) + t;
    LongParts(u, t);
    hide FourHexDigits, ReadUnicodeEscape, UnicodeEscape, HexDigit, HexValue;
    assert ShortEscaped(LOWER_U) == None;
  }

  lemma UnitRoundTrip(u: CodeUnit, t: Text)
    ensures ReadString(EscapedUnit(u) + t) == Prepend(u, ReadString(t))
  {
    hide UnicodeEscape;
    if ShortEscape(u).Some? {
      ShortRoundTrip(u, t);
      hide ReadString;
    } else if u < 0x20 || IsSurrogate(u) {
      LongRoundTrip(u, t);
      hide ReadString;
    } else {
      assert ([u] + t)[1..] == t;
    }
  }

  lemma PairRoundTrip(high: CodeUnit, low: CodeUnit, t: Text)
    requires IsHighSurrogate(high) && IsLowSurrogate(low)
    ensures ReadString([high, low] + t) == Prepend(high, Prepend(low, ReadString(t)))
  {
    assert ([high, low] + t)[1..] == [low] + t;
    assert ([low] + t)[1..] == t;
  }

  lemma Assoc(a: Text, b: Text, c: Text)
    ensures (a + b) + c == a + (b + c)
  {
  }

  lemma EscapedPair(s: Text, tail: Text)
    requires |s| >= 2 && IsHighSurrogate(s[0]) && IsLowSurrogate(s[1])
    ensures Escaped(s) + tail == [s[0], s[1]] + (Escaped(s[2..]) + tail)
  {
    var pair := s[..2];
    assert Escaped(s) == pair + Escaped(s[2..]);
    hide Escaped;
    Assoc(pair, Escaped(s[2..]), tail);
    assert pair == [s[0], s[1]];
  }

  lemma PairFirst(s: Text)
    requires |s| >= 2
    ensures s == [s[0]] + ([s[1]] + s[2..])
  {
  }

  lemma EscapedFirst(s: Text, tail: Text)
    requires s != [] && !(|s| >= 2 && IsHighSurrogate(s[0]) && IsLowSurrogate(s[1]))
    ensures Escaped(s) + tail == EscapedUnit(s[0]) + (Escaped(s[1..]) + tail)
    ensures s == [s[0]] + s[1..]
  {
    EscapedIs(s);
    hide EscapedUnit, Escaped, IsHighSurrogate, IsLowSurrogate;
    Assoc(EscapedUnit(s[0]), Escaped(s[1..]), tail);
  }

  lemma EscapedIs(s: Text)
    requires s != [] && !(|s| >= 2 && IsHighSurrogate(s[0]) && IsLowSurrogate(s[1]))
    ensures Escaped(s) == EscapedUnit(s[0]) + Escaped(s[1..])
  {
    hide EscapedUnit, IsHighSurrogate, IsLowSurrogate;
  }

  /** Reading an escaped string gives the string back, whatever follows its closing quote. */
  lemma {:induction false} StringRoundTrip(s: Text, rest: Text)
    ensures ReadString(Escaped(s) + ([QUOTE] + rest)) == Some(Read(s, rest))
    decreases |s|
  {
    var tail := [QUOTE] + rest;
    if s == [] {
      assert tail[1..] == rest;
      assert Escaped(s) + tail == tail;
    } else if |s| >= 2 && IsHighSurrogate(s[0]) && IsLowSurrogate(s[1]) {
      EscapedPair(s, tail);
      PairFirst(s);
      hide Escaped, ReadString;
      StringRoundTrip(s[2..], rest);
      PairRoundTrip(s[0], s[1], Escaped(s[2..]) + tail);
    } else {
      EscapedFirst(s, tail);
      hide Escaped, ReadString, EscapedUnit;
      StringRoundTrip(s[1..], rest);
      UnitRoundTrip(s[0], Escaped(s[1..]) + tail);
    }
  }

  // ---------------------------------------------------------------------------------------------
  // Integers
  // ---------------------------------------------------------------------------------------------

  predicate IsDigit(u: CodeUnit) { 0x30 <= u < 0x3a }

  function Digits(n: nat): (t: Text)
    ensures t != [] && forall i :: 0 <= i < |t| ==> IsDigit(t[i])
  {
    if n < 10 then [0x30 + n] else Digits(n / 10) + [0x30 + n % 10]
  }

  function Number(n: int): Text {
    if n < 0 then [MINUS] + Digits(-n) else Digits(n)
  }

  function DigitsValue(t: Text): nat
    requires forall i :: 0 <= i < |t| ==> IsDigit(t[i])
  {
    if t == [] then 0
    else
      var last: int := t[|t| - 1];
      assert IsDigit(t[|t| - 1]);
      DigitsValue(t[..|t| - 1]) * 10 + (last - 0x30)
  }

  function LeadingDigits(t: Text): (n: nat)
    ensures n <= |t| && forall i :: 0 <= i < n ==> IsDigit(t[i])
    ensures n == |t| || !IsDigit(t[n])
  {
    if t == [] || !IsDigit(t[0]) then 0 else 1 + LeadingDigits(t[1..])
  }

  function ReadDigits(t: Text): (r: Option<Read<int>>)
    ensures r.Some? ==> |r.value.rest| < |t|
  {
    var n := LeadingDigits(t);
    if n == 0 then None else Some(Read(DigitsValue(t[..n]), t[n..]))
  }

  function ReadNumber(t: Text): (r: Option<Read<int>>)
    ensures r.Some? ==> |r.value.rest| < |t|
  {
    if t != [] && t[0] == MINUS then
      var r := ReadDigits(t[1..]);
      if r.None? then None else Some(Read(-r.value.value, r.value.rest))
    else ReadDigits(t)
  }

  lemma {:induction false} DigitsRoundTrip(n: nat)
    ensures DigitsValue(Digits(n)) == n
  {
    if n >= 10 {
      DigitsRoundTrip(n / 10);
      assert Digits(n)[..|Digits(n)| - 1] == Digits(n / 10);
    } else {
      assert Digits(n)[..0] == [];
    }
  }

  lemma {:induction false} LeadingDigitsAre(ds: Text, rest: Text)
    requires forall i :: 0 <= i < |ds| ==> IsDigit(ds[i])
    requires rest == [] || !IsDigit(rest[0])
    ensures LeadingDigits(ds + rest) == |ds|
  {
    if ds == [] {
      assert ds + rest == rest;
    } else {
      LeadingDigitsAre(ds[1..], rest);
      assert (ds + rest)[1..] == ds[1..] + rest;
    }
  }

  lemma ReadDigitsBack(n: nat, rest: Text)
    requires rest == [] || !IsDigit(rest[0])
    ensures ReadDigits(Digits(n) + rest) == Some(Read(n, rest))
  {
    var ds := Digits(n);
    LeadingDigitsAre(ds, rest);
    DigitsRoundTrip(n);
    hide Digits, DigitsValue, LeadingDigits;
    assert (ds + rest)[..|ds|] == ds && (ds + rest)[|ds|..] == rest;
  }

  lemma Signed(ds: Text, rest: Text)
    ensures var t := [MINUS] + ds + rest; t[0] == MINUS && t[1..] == ds + rest
  {
  }

  /** Reading a printed integer gives the integer back when no digit follows. */
  lemma NumberRoundTrip(n: int, rest: Text)
    requires rest == [] || !IsDigit(rest[0])
    ensures ReadNumber(Number(n) + rest) == Some(Read(n, rest))
  {
    var ds := Digits(if n < 0 then -n else n);
    ReadDigitsBack(if n < 0 then -n else n, rest);
    assert IsDigit(ds[0]) && !IsDigit(MINUS);
    hide Digits, ReadDigits, IsDigit;
    if n < 0 {
      Signed(ds, rest);
    } else {
      assert (ds + rest)[0] == ds[0] != MINUS;
    }
  }
}
