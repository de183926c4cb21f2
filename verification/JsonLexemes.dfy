/**
  Text as JavaScript sees it (UTF-16 code units) and the lexemes of JSON:
  string literals (RFC 8259, section 7) and numbers (section 6).
 */
module JsonLexemes {
  import opened Basics

  /** One UTF-16 code unit. */
  type Unit = u: int | 0 <= u < 0x1_0000
  type Text = seq<Unit>

  const QUOTE: Unit := 0x22
  const BACKSLASH: Unit := 0x5C
  const COMMA: Unit := 0x2C
  const COLON: Unit := 0x3A
  const LBRACE: Unit := 0x7B
  const RBRACE: Unit := 0x7D
  const LBRACKET: Unit := 0x5B
  const RBRACKET: Unit := 0x5D
  const MINUS: Unit := 0x2D
  const PLUS: Unit := 0x2B
  const DOT: Unit := 0x2E
  const ZERO: Unit := 0x30

  const TRUE: Text := [0x74, 0x72, 0x75, 0x65]
  const FALSE: Text := [0x66, 0x61, 0x6C, 0x73, 0x65]
  const NULL: Text := [0x6E, 0x75, 0x6C, 0x6C]

  // ---------------------------------------------------------------- strings

  predicate HighSurrogate(u: Unit) { 0xD800 <= u < 0xDC00 }

  predicate LowSurrogate(u: Unit) { 0xDC00 <= u < 0xE000 }

  function HexDigit(d: int): Unit
    requires 0 <= d < 16
  {
    if d < 10 then 0x30 + d else 0x61 + d - 10
  }

  function HexValue(u: Unit): (v: Option<int>)
    ensures v.Some? ==> 0 <= v.value < 0x10
  {
    if 0x30 <= u <= 0x39 then Some(u - 0x30)
    else if 0x61 <= u <= 0x66 then Some(u - 0x61 + 10)
    else if 0x41 <= u <= 0x46 then Some(u - 0x41 + 10)
    else None
  }

  /** The escape `\uXXXX`, in the lower-case digits `JSON.stringify` prints. */
  function UnicodeEscape(u: Unit): Text {
    [BACKSLASH, 0x75, HexDigit(u / 0x1000), HexDigit(u / 0x100 % 0x10), HexDigit(u / 0x10 % 0x10), HexDigit(u % 0x10)]
  }

  /** The unit a two-character escape stands for, keyed by its second character. */
  function ShortEscape(u: Unit): Option<Unit> {
    if u == QUOTE || u == BACKSLASH || u == 0x2F then Some(u)
    else if u == 0x62 then Some(0x08)
    else if u == 0x66 then Some(0x0C)
    else if u == 0x6E then Some(0x0A)
    else if u == 0x72 then Some(0x0D)
    else if u == 0x74 then Some(0x09)
    else None
  }

  /** How `JSON.stringify` writes one unit that is not part of a surrogate pair. */
  function EscapeUnit(u: Unit): Text {
    if u == QUOTE || u == BACKSLASH then [BACKSLASH, u]
    else if u == 0x08 then [BACKSLASH, 0x62]
    else if u == 0x0C then [BACKSLASH, 0x66]
    else if u == 0x0A then [BACKSLASH, 0x6E]
    else if u == 0x0D then [BACKSLASH, 0x72]
    else if u == 0x09 then [BACKSLASH, 0x74]
    else if u < 0x20 || HighSurrogate(u) || LowSurrogate(u) then UnicodeEscape(u)
    else [u]
  }

  /** The body of the string literal `JSON.stringify(s)` (lone surrogates escaped, pairs raw). */
  function Escape(s: Text): Text {
    if s == [] then []
    else if |s| > 1 && HighSurrogate(s[0]) && LowSurrogate(s[1]) then s[..2] + Escape(s[2..])
    else EscapeUnit(s[0]) + Escape(s[1..])
  }

  /** The code unit written as four hexadecimal digits. */
  function FourHexDigits(a: Unit, b: Unit, c: Unit, d: Unit): Option<Unit> {
    var x :- HexValue(a);
    var y :- HexValue(b);
    var z :- HexValue(c);
    var w :- HexValue(d);
    Some(x * 0x1000 + y * 0x100 + z * 0x10 + w)
  }

  /** What `JSON.parse` reads from a string literal with this body; `None` when it throws. */
  function Decode(body: Text): Option<Text> {
    if body == [] then Some([])
    else if body[0] == QUOTE || body[0] < 0x20 then None
    else if body[0] != BACKSLASH then
      var tail :- Decode(body[1..]);
      Some([body[0]] + tail)
    else if |body| < 2 then None
    else if body[1] == 0x75 then
      if |body| < 6 then None
      else
        var u :- FourHexDigits(body[2], body[3], body[4], body[5]);
        var tail :- Decode(body[6..]);
        Some([u] + tail)
    else
      var u :- ShortEscape(body[1]);
      var tail :- Decode(body[2..]);
      Some([u] + tail)
  }

  lemma HexDigits(u: Unit)
    ensures u / 0x1000 * 0x1000 + u / 0x100 % 0x10 * 0x100 + u / 0x10 % 0x10 * 0x10 + u % 0x10 == u
  {
    assert u / 0x100 == u / 0x1000 * 0x10 + u / 0x100 % 0x10;
    assert u / 0x10 == u / 0x100 * 0x10 + u / 0x10 % 0x10;
  }

  lemma DecodeUnicodeEscape(u: Unit, rest: Text)
    requires Decode(rest).Some?
    ensures Decode(UnicodeEscape(u) + rest) == Some([u] + Decode(rest).value)
  {
    var body := UnicodeEscape(u) + rest;
    assert body[6..] == rest;
    WrittenInHex(u);
  }

  lemma WrittenInHex(u: Unit)
    ensures FourHexDigits(HexDigit(u / 0x1000), HexDigit(u / 0x100 % 0x10), HexDigit(u / 0x10 % 0x10), HexDigit(u % 0x10)) == Some(u)
  {
    HexDigits(u);
    assert HexValue(HexDigit(u / 0x1000)) == Some(u / 0x1000);
    assert HexValue(HexDigit(u / 0x100 % 0x10)) == Some(u / 0x100 % 0x10);
    assert HexValue(HexDigit(u / 0x10 % 0x10)) == Some(u / 0x10 % 0x10);
    assert HexValue(HexDigit(u % 0x10)) == Some(u % 0x10);
  }

  lemma DecodeShortEscape(x: Unit, rest: Text)
    requires Decode(rest).Some? && x != 0x75 && ShortEscape(x).Some?
    ensures Decode([BACKSLASH, x] + rest) == Some([ShortEscape(x).value] + Decode(rest).value)
  {
    assert ([BACKSLASH, x] + rest)[2..] == rest;
  }

  lemma DecodeEscapeUnit(u: Unit, rest: Text)
    requires Decode(rest).Some?
    ensures Decode(EscapeUnit(u) + rest) == Some([u] + Decode(rest).value)
  {
    var e := EscapeUnit(u);
    if e == UnicodeEscape(u) {
      DecodeUnicodeEscape(u, rest);
    } else if |e| == 2 {
      DecodeShortEscape(e[1], rest);
    } else {
      assert e == [u];
      assert (e + rest)[1..] == rest;
    }
  }

  lemma DecodePlain(u: Unit, rest: Text)
    requires Decode(rest).Some? && u >= 0x20 && u != QUOTE && u != BACKSLASH
    ensures Decode([u] + rest) == Some([u] + Decode(rest).value)
  {
    assert ([u] + rest)[1..] == rest;
  }

  /** Reading a printed string literal gives the string back, lone surrogates included. */
  lemma {:induction false} DecodeEscape(s: Text)
    ensures Decode(Escape(s)) == Some(s)
  {
    if s == [] {
    } else if |s| > 1 && HighSurrogate(s[0]) && LowSurrogate(s[1]) {
      DecodeEscape(s[2..]);
      DecodePlain(s[1], Escape(s[2..]));
      DecodePlain(s[0], [s[1]] + Escape(s[2..]));
      assert Escape(s) == [s[0]] + ([s[1]] + Escape(s[2..]));
      assert s == [s[0]] + ([s[1]] + s[2..]);
    } else {
      DecodeEscape(s[1..]);
      DecodeEscapeUnit(s[0], Escape(s[1..]));
      assert s == [s[0]] + s[1..];
    }
  }

  /** The scanner's own walk to a closing quote: the length of the body before it. */
  function BodyLength(s: Text): (n: Option<nat>)
    ensures n.Some? ==> n.value < |s| && s[n.value] == QUOTE
  {
    if s == [] then None
    else if s[0] == QUOTE then Some(0)
    else if s[0] == BACKSLASH then
      if |s| < 2 then None
      else
        var n :- BodyLength(s[2..]);
        Some(n + 2)
    else if s[0] < 0x20 then None
    else
      var n :- BodyLength(s[1..]);
      Some(n + 1)
  }

  lemma {:induction false} BodyLengthPlain(plain: Text, s: Text)
    requires forall i | 0 <= i < |plain| :: plain[i] != QUOTE && plain[i] != BACKSLASH && plain[i] >= 0x20
    ensures BodyLength(s).None? ==> BodyLength(plain + s).None?
    ensures BodyLength(s).Some? ==> BodyLength(plain + s) == Some(|plain| + BodyLength(s).value)
  {
    if plain == [] {
      assert plain + s == s;
    } else {
      BodyLengthPlain(plain[1..], s);
      assert (plain + s)[1..] == plain[1..] + s;
    }
  }

  /** The walk stops exactly at the end of a body that decodes. */
  lemma {:induction false} BodyLengthOfDecodable(body: Text, rest: Text)
    requires Decode(body).Some?
    ensures BodyLength(body + ([QUOTE] + rest)) == Some(|body|)
  {
    var tail := [QUOTE] + rest;
    if body == [] {
      assert body + tail == tail;
    } else if body[0] != BACKSLASH {
      BodyLengthOfDecodable(body[1..], rest);
      SliceAppend(body, tail, 1);
    } else if body[1] == 0x75 {
      BodyLengthOfDecodable(body[6..], rest);
      BodyLengthUnicode(body, tail);
    } else {
      BodyLengthOfDecodable(body[2..], rest);
      SliceAppend(body, tail, 2);
    }
  }

  /** Hexadecimal digits end no literal. */
  lemma BodyLengthUnicode(body: Text, tail: Text)
    requires |body| >= 6 && body[0] == BACKSLASH && body[1] == 0x75
    requires FourHexDigits(body[2], body[3], body[4], body[5]).Some?
    requires BodyLength(body[6..] + tail).Some?
    ensures BodyLength(body + tail) == Some(6 + BodyLength(body[6..] + tail).value)
  {
    BodyLengthPlain(body[2..6], body[6..] + tail);
    SliceAppend(body, tail, 2);
    assert body[2..] + tail == body[2..6] + (body[6..] + tail);
  }

  // ---------------------------------------------------------------- numbers

  predicate Digit(u: Unit) { ZERO <= u <= 0x39 }

  function DigitRun(s: Text): (n: nat)
    ensures n <= |s|
  {
    if s == [] || !Digit(s[0]) then 0 else 1 + DigitRun(s[1..])
  }

  /** Length of `-?(0|[1-9]\d*)` at the start of `s`, if it is there. */
  function IntegerLength(s: Text): (n: Option<nat>)
    ensures n.Some? ==> 0 < n.value <= |s|
  {
    var sign := if s != [] && s[0] == MINUS then 1 else 0;
    if |s| <= sign || !Digit(s[sign]) then None
    else if s[sign] == ZERO then Some(sign + 1)
    else Some(sign + DigitRun(s[sign..]))
  }

  /** Length of the optional `\.\d+`. */
  function FractionLength(s: Text): (n: nat)
    ensures n <= |s|
  {
    if s == [] || s[0] != DOT || DigitRun(s[1..]) == 0 then 0 else 1 + DigitRun(s[1..])
  }

  /** Length of the optional `[eE][+-]?\d+`. */
  function ExponentLength(s: Text): (n: nat)
    ensures n <= |s|
  {
    if s == [] || (s[0] != 0x65 && s[0] != 0x45) then 0
    else
      var sign := if |s| > 1 && (s[1] == PLUS || s[1] == MINUS) then 2 else 1;
      if DigitRun(s[sign..]) == 0 then 0 else sign + DigitRun(s[sign..])
  }

  /** The longest match of the scanner's number expression at the start of `s`. */
  function NumberLength(s: Text): (n: Option<nat>)
    ensures n.Some? ==> 0 < n.value <= |s|
  {
    var i :- IntegerLength(s);
    var f := FractionLength(s[i..]);
    var e := ExponentLength(s[i + f..]);
    Some(i + f + e)
  }

  /** A number in the grammar of RFC 8259, section 6. */
  predicate NumberText(t: Text) {
    NumberLength(t) == Some(|t|)
  }

  /** A unit that could lengthen a number it follows. */
  predicate NumberContinues(u: Unit) {
    Digit(u) || u == DOT || u == 0x65 || u == 0x45
  }

  predicate EndsNumber(rest: Text) {
    rest == [] || !NumberContinues(rest[0])
  }

  lemma {:induction false} DigitRunExtend(s: Text, rest: Text)
    requires rest == [] || !Digit(rest[0])
    ensures DigitRun(s + rest) == DigitRun(s)
  {
    if s == [] {
      assert s + rest == rest;
    } else {
      DigitRunExtend(s[1..], rest);
      assert (s + rest)[1..] == s[1..] + rest;
    }
  }

  lemma {:induction false} DigitRunPrefix(s: Text, n: nat)
    requires DigitRun(s) <= n <= |s|
    ensures DigitRun(s[..n]) == DigitRun(s)
  {
    if s != [] && Digit(s[0]) {
      DigitRunPrefix(s[1..], n - 1);
      assert s[..n][1..] == s[1..][..n - 1];
    }
  }

  lemma IntegerExtend(s: Text, rest: Text)
    requires EndsNumber(rest) && IntegerLength(s).Some?
    ensures IntegerLength(s + rest) == IntegerLength(s)
  {
    var sign := if s[0] == MINUS then 1 else 0;
    assert (s + rest)[sign..] == s[sign..] + rest;
    DigitRunExtend(s[sign..], rest);
  }

  lemma FractionExtend(s: Text, rest: Text)
    requires EndsNumber(rest)
    ensures FractionLength(s + rest) == FractionLength(s)
  {
    if s == [] {
      assert s + rest == rest;
    } else {
      assert (s + rest)[1..] == s[1..] + rest;
      DigitRunExtend(s[1..], rest);
    }
  }

  lemma ExponentExtend(s: Text, rest: Text)
    requires EndsNumber(rest) && ExponentLength(s) == |s|
    ensures ExponentLength(s + rest) == ExponentLength(s)
  {
    if s == [] {
      assert s + rest == rest;
    } else {
      var sign := if |s| > 1 && (s[1] == PLUS || s[1] == MINUS) then 2 else 1;
      assert (s + rest)[sign..] == s[sign..] + rest;
      DigitRunExtend(s[sign..], rest);
    }
  }

  /** A complete number keeps its length in front of anything that ends it. */
  lemma NumberLengthExtend(t: Text, rest: Text)
    requires NumberText(t) && EndsNumber(rest)
    ensures NumberLength(t + rest) == Some(|t|)
  {
    var i := IntegerLength(t).value;
    var f := FractionLength(t[i..]);
    IntegerExtend(t, rest);
    SliceAppend(t, rest, i);
    FractionExtend(t[i..], rest);
    SliceAppend(t, rest, i + f);
    ExponentExtend(t[i + f..], rest);
  }

  lemma SliceAppend(t: Text, rest: Text, n: nat)
    requires n <= |t|
    ensures (t + rest)[n..] == t[n..] + rest
  {
  }

  lemma IntegerPrefix(s: Text, n: nat)
    requires IntegerLength(s).Some? && IntegerLength(s).value <= n <= |s|
    ensures IntegerLength(s[..n]) == IntegerLength(s)
  {
    var sign := if s[0] == MINUS then 1 else 0;
    var t := s[..n];
    assert t[sign..] == s[sign..][..n - sign];
    if s[sign] != ZERO {
      DigitRunPrefix(s[sign..], n - sign);
    }
  }

  /** What the number expression matches is itself a number. */
  lemma NumberLengthPrefix(s: Text)
    requires NumberLength(s).Some?
    ensures NumberText(s[..NumberLength(s).value])
  {
    var n := NumberLength(s).value;
    var i := IntegerLength(s).value;
    var f := FractionLength(s[i..]);
    IntegerPrefix(s, n);
    SlicePrefix(s, n, i);
    FractionBefore(s, n, i, f);
    SlicePrefix(s, n, i + f);
    ExponentPrefix(s[i + f..]);
  }

  /** The fraction is the same in the part of the text that the number takes. */
  lemma FractionBefore(s: Text, n: nat, i: nat, f: nat)
    requires i + f <= n <= |s| && f == FractionLength(s[i..])
    requires n - i - f == ExponentLength(s[i + f..])
    ensures FractionLength(s[i..][..n - i]) == f
  {
    assert n > i + f ==> s[i + f..][0] == s[i..][f];
    FractionPrefix(s[i..], n - i);
  }

  lemma SlicePrefix(s: Text, n: nat, i: nat)
    requires i <= n <= |s|
    ensures s[..n][i..] == s[i..][..n - i]
  {
  }

  lemma FractionPrefix(s: Text, n: nat)
    requires FractionLength(s) <= n <= |s|
    requires n > FractionLength(s) ==> s[FractionLength(s)] == 0x65 || s[FractionLength(s)] == 0x45
    ensures FractionLength(s[..n]) == FractionLength(s)
  {
    if n > 0 && s[0] == DOT {
      assert s[..n][1..] == s[1..][..n - 1];
      if FractionLength(s) > 0 {
        DigitRunPrefix(s[1..], n - 1);
      }
    }
  }

  lemma ExponentPrefix(s: Text)
    ensures ExponentLength(s[..ExponentLength(s)]) == ExponentLength(s)
  {
    var n := ExponentLength(s);
    if n > 0 {
      var sign := if |s| > 1 && (s[1] == PLUS || s[1] == MINUS) then 2 else 1;
      assert s[..n][sign..] == s[sign..][..n - sign];
      DigitRunPrefix(s[sign..], n - sign);
    }
  }
}
