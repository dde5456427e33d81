/** A writer of JSON texts, against which the reader is checked: whatever value is written is read back. */
module JsonWriting {
  import opened Common
  import opened Decimals
  import opened Json
  import opened JsonReading

  // ---------------------------------------------------------------------------------------------
  // UTF-8
  // ---------------------------------------------------------------------------------------------

  /** A Unicode scalar value: any code point but a surrogate. */
  type Scalar = n: nat | n < 0xD800 || 0xE000 <= n < 0x11_0000

  ghost function EncodedAll(ns: seq<Scalar>): Bytes {
    if ns == [] then [] else Encoded(ns[0]) + EncodedAll(ns[1..])
  }

  /** Exactly the encodings of scalar values are accepted. */
  lemma Utf8Iff(s: Bytes)
    ensures Utf8(s) <==> exists ns :: s == EncodedAll(ns)
  {
    assert s[0..] == s;
    if Utf8(s) {
      var ns := Decoded(s, 0);
    }
    if ns :| s == EncodedAll(ns) {
      EncodedIsUtf8(s, 0, ns);
    }
  }

  lemma {:induction false} Decoded(s: Bytes, i: nat) returns (ns: seq<Scalar>)
    requires i <= |s| && Utf8From(s, i)
    ensures s[i..] == EncodedAll(ns)
    decreases |s| - i
  {
    if i == |s| {
      ns := [];
    } else {
      var n, k := FirstScalar(s, i);
      hide Utf8From;
      var more := Decoded(s, i + k);
      ns := [n] + more;
      assert s[i..] == s[i..i + k] + s[i + k..];
      assert ns[0] == n && ns[1..] == more;
    }
  }

  lemma Base64(h: nat, l: nat)
    requires l < 0x40
    ensures (h * 0x40 + l) / 0x40 == h && (h * 0x40 + l) % 0x40 == l
  {}

  lemma TwoDigits(h: nat, x: nat, y: nat)
    requires x < 0x40 && y < 0x40
    ensures var n := (h * 0x40 + x) * 0x40 + y; n / 0x1000 == h && n / 0x40 % 0x40 == x && n % 0x40 == y
  {
    Base64(h, x);
    Base64(h * 0x40 + x, y);
  }

  lemma ThreeDigits(h: nat, x: nat, y: nat, z: nat)
    requires x < 0x40 && y < 0x40 && z < 0x40
    ensures var n := ((h * 0x40 + x) * 0x40 + y) * 0x40 + z;
      n / 0x4_0000 == h && n / 0x1000 % 0x40 == x && n / 0x40 % 0x40 == y && n % 0x40 == z
  {
    TwoDigits(h, x, y);
    Base64((h * 0x40 + x) * 0x40 + y, z);
  }

  lemma FirstScalar(s: Bytes, i: nat) returns (n: Scalar, k: nat)
    requires i < |s| && Utf8From(s, i)
    ensures 0 < k && i + k <= |s| && s[i..i + k] == Encoded(n) && Utf8From(s, i + k)
  {
    var a := s[i] as nat;
    if a < 0x80 {
      n, k := a, 1;
    } else if a < 0xE0 {
      k := 2;
      n := TwoBytes(a - 0xC0, s[i + 1] as nat - 0x80);
    } else if a < 0xF0 {
      k := 3;
      n := ThreeBytes(a - 0xE0, s[i + 1] as nat - 0x80, s[i + 2] as nat - 0x80);
    } else {
      k := 4;
      n := FourBytes(a - 0xF0, s[i + 1] as nat - 0x80, s[i + 2] as nat - 0x80, s[i + 3] as nat - 0x80);
    }
    hide Encoded;
  }

  lemma TwoBytes(h: nat, x: nat) returns (n: Scalar)
    requires 2 <= h < 0x20 && x < 0x40
    ensures Encoded(n) == [Byte(0xC0 + h), Byte(0x80 + x)]
  {
    n := h * 0x40 + x;
    Base64(h, x);
  }

  lemma ThreeBytes(h: nat, x: nat, y: nat) returns (n: Scalar)
    requires h < 0x10 && x < 0x40 && y < 0x40 && (h == 0 ==> 0x20 <= x) && (h == 0xD ==> x < 0x20)
    ensures Encoded(n) == [Byte(0xE0 + h), Byte(0x80 + x), Byte(0x80 + y)]
  {
    TwoDigits(h, x, y);
    n := (h * 0x40 + x) * 0x40 + y;
  }

  lemma FourBytes(h: nat, x: nat, y: nat, z: nat) returns (n: Scalar)
    requires h < 5 && x < 0x40 && y < 0x40 && z < 0x40 && (h == 0 ==> 0x10 <= x) && (h == 4 ==> x < 0x10)
    ensures Encoded(n) == [Byte(0xF0 + h), Byte(0x80 + x), Byte(0x80 + y), Byte(0x80 + z)]
  {
    ThreeDigits(h, x, y, z);
    n := ((h * 0x40 + x) * 0x40 + y) * 0x40 + z;
  }

  lemma {:induction false} EncodedIsUtf8(s: Bytes, i: nat, ns: seq<Scalar>)
    requires i <= |s| && s[i..] == EncodedAll(ns)
    ensures Utf8From(s, i)
    decreases |ns|
  {
    if ns == [] {
      assert i == |s|;
    } else {
      hide Utf8From, Encoded;
      SplitOff(s, i, Encoded(ns[0]), EncodedAll(ns[1..]));
      EncodedIsUtf8(s, i + |Encoded(ns[0])|, ns[1..]);
      OneScalar(s, i, ns[0]);
    }
  }

  lemma SplitOff(s: Bytes, i: nat, e: Bytes, rest: Bytes)
    requires i <= |s| && s[i..] == e + rest
    ensures i + |e| <= |s| && s[i..i + |e|] == e && s[i + |e|..] == rest
  {
    assert s[i..][..|e|] == e && s[i..][|e|..] == rest;
  }

  lemma OneScalar(s: Bytes, i: nat, n: Scalar)
    requires i + |Encoded(n)| <= |s| && s[i..i + |Encoded(n)|] == Encoded(n)
    requires Utf8From(s, i + |Encoded(n)|)
    ensures Utf8From(s, i)
  {
    forall j | 0 <= j < |Encoded(n)| ensures s[i + j] == Encoded(n)[j] {
      assert s[i..i + |Encoded(n)|][j] == s[i + j];
    }
    assert s[i + 0] == Encoded(n)[0];
    assert |Encoded(n)| > 1 ==> s[i + 1] == Encoded(n)[1];
    assert |Encoded(n)| > 2 ==> s[i + 2] == Encoded(n)[2];
    assert |Encoded(n)| > 3 ==> s[i + 3] == Encoded(n)[3];
  }

  // ---------------------------------------------------------------------------------------------
  // Strings
  // ---------------------------------------------------------------------------------------------

  function HexChar(d: nat): char
    requires d < 16
  {
    if d < 10 then '0' + d as char else 'A' + (d - 10) as char
  }

  /** Four hexadecimal digits. */
  function FourHex(n: nat): (h: Bytes)
    requires n < 0x1_0000
    ensures |h| == 4
  {
    [HexChar(n / 0x1000), HexChar(n / 0x100 % 0x10), HexChar(n / 0x10 % 0x10), HexChar(n % 0x10)]
  }

  /** Section 7 of RFC 8259: quote, backslash and control characters are escaped, by the short form where
      there is one. */
  function EscapedChar(c: char): Bytes {
    match c
    case '"' => "\\\""
    case '\\' => "\\\\"
    case '/' => "\\/"
    case '\n' => "\\n"
    case '\t' => "\\t"
    case '\r' => "\\r"
    case '\U{0008}' => "\\b"
    case '\U{000C}' => "\\f"
    case _ => if c < ' ' then "\\u" + FourHex(c as nat) else [c]
  }

  function Escaped(t: Bytes): Bytes {
    if t == [] then [] else EscapedChar(t[0]) + Escaped(t[1..])
  }

  lemma HexCharIsRead(d: nat)
    requires d < 16
    ensures HexDigit(HexChar(d)) == Some(d)
  {}

  lemma HexStep(s: Bytes, p: nat, k: nat, high: nat, d: nat)
    requires p < |s| && k > 0 && d < 16 && s[p] == HexChar(d)
    ensures Hex(s, p, k, high) == if k == 1 then Some(high * 16 + d) else Hex(s, p + 1, k - 1, high * 16 + d)
  {
    HexCharIsRead(d);
    hide HexDigit, HexChar;
  }

  lemma HexDigits(n: nat)
    requires n < 0x1_0000
    ensures n == ((n / 0x1000 * 16 + n / 0x100 % 0x10) * 16 + n / 0x10 % 0x10) * 16 + n % 0x10
  {}

  lemma FourHexIsRead(s: Bytes, p: nat, n: nat)
    requires n < 0x1_0000 && At(s, p, FourHex(n))
    ensures Hex(s, p, 4, 0) == Some(n)
  {
    hide HexChar, Hex;
    HexDigits(n);
    var h := FourHex(n);
    assert s[p + 0] == h[0] && s[p + 1] == h[1] && s[p + 2] == h[2] && s[p + 3] == h[3];
    FourAreRead(s, p, n / 0x1000, n / 0x100 % 0x10, n / 0x10 % 0x10, n % 0x10);
  }

  lemma FourAreRead(s: Bytes, p: nat, a: nat, b: nat, c: nat, d: nat)
    requires a < 16 && b < 16 && c < 16 && d < 16 && p + 4 <= |s|
    requires s[p] == HexChar(a) && s[p + 1] == HexChar(b) && s[p + 2] == HexChar(c) && s[p + 3] == HexChar(d)
    ensures Hex(s, p, 4, 0) == Some(((a * 16 + b) * 16 + c) * 16 + d)
  {
    hide HexChar, Hex;
    HexStep(s, p, 4, 0, a);
    HexStep(s, p + 1, 3, a, b);
    HexStep(s, p + 2, 2, a * 16 + b, c);
    HexStep(s, p + 3, 1, (a * 16 + b) * 16 + c, d);
  }

  /** What is written for one character is read as this character. */
  lemma CharIsRead(s: Bytes, p: nat, c: char)
    requires At(s, p, EscapedChar(c))
    ensures p + |EscapedChar(c)| <= |s| && s[p] != '"' && s[p] >= ' '
    ensures s[p] == '\\' ==> ReadEscape(s, p + 1) == Done([c], p + |EscapedChar(c)|)
    ensures s[p] != '\\' ==> s[p] == c && |EscapedChar(c)| == 1
  {
    var e := EscapedChar(c);
    assert s[p + 0] == e[0];
    if |e| > 1 {
      assert s[p + 1] == e[1];
    }
    if |e| == 6 {
      AtParts(s, p, "\\u", FourHex(c as nat));
      FourHexIsRead(s, p + 2, c as nat);
      hide Hex;
    }
  }

  lemma {:induction false} EscapedIsRead(s: Bytes, p: nat, t: Bytes)
    requires At(s, p, Escaped(t)) && p + |Escaped(t)| < |s| && s[p + |Escaped(t)|] == '"'
    ensures ReadText(s, p) == Done(t, p + |Escaped(t)| + 1)
    decreases |t|
  {
    hide At, EscapedChar, ReadEscape;
    if t != [] {
      AtParts(s, p, EscapedChar(t[0]), Escaped(t[1..]));
      CharIsRead(s, p, t[0]);
      EscapedIsRead(s, p + |EscapedChar(t[0])|, t[1..]);
      assert t == [t[0]] + t[1..];
    }
  }

  /** Every text that is valid UTF-8 can be written between quotes, and is read back. */
  lemma TextIsRead(s: Bytes, p: nat, t: Bytes)
    requires Utf8(t) && At(s, p, Escaped(t) + "\"")
    ensures ReadString(s, p) == Done(t, p + |Escaped(t)| + 1)
  {
    AtParts(s, p, Escaped(t), "\"");
    AtFirst(s, p + |Escaped(t)|, "\"");
    hide Utf8, ReadText, Escaped;
    EscapedIsRead(s, p, t);
  }

  /** Any scalar value may be written in digits, from 0x1_0000 on as a pair of surrogates ... */
  function Unicode(n: Scalar): Bytes {
    if n < 0x1_0000 then FourHex(n)
    else FourHex(0xD800 + (n - 0x1_0000) / 0x400) + ("\\u" + FourHex(0xDC00 + (n - 0x1_0000) % 0x400))
  }

  lemma UnicodeIsRead(s: Bytes, p: nat, n: Scalar)
    requires At(s, p, Unicode(n))
    ensures ReadCodePoint(s, p) == Done(Encoded(n), p + |Unicode(n)|)
  {
    hide Hex, FourHex, Encoded, At;
    if n < 0x1_0000 {
      FourHexIsRead(s, p, n);
    } else {
      var high, low := 0xD800 + (n - 0x1_0000) / 0x400, 0xDC00 + (n - 0x1_0000) % 0x400;
      AtParts(s, p, FourHex(high), "\\u" + FourHex(low));
      AtParts(s, p + 4, "\\u", FourHex(low));
      StandsThere(s, p + 4, '\\', 'u');
      FourHexIsRead(s, p, high);
      FourHexIsRead(s, p + 6, low);
    }
  }

  lemma StandsThere(s: Bytes, p: nat, c: char, d: char)
    requires At(s, p, [c, d])
    ensures p + 1 < |s| && s[p] == c && s[p + 1] == d
  {
    assert s[p + 0] == [c, d][0] && s[p + 1] == [c, d][1];
  }

  /** ... of which neither half can stand alone. */
  lemma LoneSurrogate(s: Bytes, p: nat, n: nat)
    requires 0xD800 <= n < 0xE000 && At(s, p, FourHex(n))
    requires n < 0xDC00 ==> !(p + 5 < |s| && s[p + 4] == '\\' && s[p + 5] == 'u')
    ensures ReadCodePoint(s, p) == Fail
  {
    FourHexIsRead(s, p, n);
    hide Hex;
  }

  // ---------------------------------------------------------------------------------------------
  // Numbers
  // ---------------------------------------------------------------------------------------------

  ghost predicate IsFraction(d: Bytes) { d == [] || (|d| > 1 && d[0] == '.' && AllDigits(d[1..])) }

  ghost predicate IsSigned(d: Bytes) {
    && d != []
    && if d[0] == '+' || d[0] == '-' then |d| > 1 && AllDigits(d[1..]) else AllDigits(d)
  }

  ghost predicate IsExponent(d: Bytes) { d == [] || ((d[0] == 'e' || d[0] == 'E') && IsSigned(d[1..])) }

  /** Section 6 of RFC 8259, part by part. */
  ghost predicate IsNumber(d: Bytes) {
    exists minus: bool, whole: Bytes, fraction: Bytes, exponent: Bytes ::
      IsInteger(whole) && IsFraction(fraction) && IsExponent(exponent) && d == Joined(minus, whole, fraction, exponent)
  }

  ghost function Joined(minus: bool, whole: Bytes, fraction: Bytes, exponent: Bytes): Bytes {
    (if minus then "-" else "") + (whole + (fraction + exponent))
  }

  /** Nothing follows that could belong to a number. */
  ghost predicate Stops(s: Bytes, q: nat) { q < |s| ==> s[q] == ',' || s[q] == ']' || s[q] == '}' || IsSpace(s[q]) }

  ghost predicate NoDigit(s: Bytes, q: nat) { q < |s| ==> !IsDigit(s[q]) }

  lemma {:induction false} DigitsOver(s: Bytes, p: nat, d: Bytes)
    requires At(s, p, d) && AllDigits(d) && NoDigit(s, p + |d|)
    ensures DigitRun(s, p) == p + |d|
    decreases |d|
  {
    if d != [] {
      assert s[p] == d[0];
      assert At(s, p + 1, d[1..]);
      DigitsOver(s, p + 1, d[1..]);
    }
  }

  lemma IntegerOver(s: Bytes, p: nat, d: Bytes)
    requires IsInteger(d) && At(s, p, d) && NoDigit(s, p + |d|)
    ensures IntegerEnd(s, p) == Some(p + |d|)
  {
    DigitsOver(s, p, d);
    assert s[p + 0] == d[0];
    hide DigitRun;
  }

  lemma FractionOver(s: Bytes, p: nat, d: Bytes)
    requires IsFraction(d) && At(s, p, d) && NoDigit(s, p + |d|) && (p + |d| < |s| ==> s[p + |d|] != '.')
    ensures FractionEnd(s, p) == Some(p + |d|)
  {
    if d != [] {
      assert d == [d[0]] + d[1..];
      AtHead(s, p, d[0], d[1..]);
      DigitsOver(s, p + 1, d[1..]);
    }
    hide DigitRun;
  }

  lemma ExponentOver(s: Bytes, p: nat, d: Bytes)
    requires IsExponent(d) && At(s, p, d) && Stops(s, p + |d|)
    ensures ExponentEnd(s, p) == Some(p + |d|)
  {
    hide At;
    if d != [] {
      var e := d[1..];
      assert d == [d[0]] + e;
      AtHead(s, p, d[0], e);
      AtFirst(s, p + 1, e);
      if e[0] == '+' || e[0] == '-' {
        assert e == [e[0]] + e[1..];
        AtHead(s, p + 1, e[0], e[1..]);
        DigitsOver(s, p + 2, e[1..]);
      } else {
        DigitsOver(s, p + 1, e);
      }
    }
    hide DigitRun;
  }

  /** Every number is read to its end. */
  lemma NumberIsRead(s: Bytes, p: nat, d: Bytes)
    requires IsNumber(d) && At(s, p, d) && Stops(s, p + |d|)
    ensures ReadNumber(s, p) == Done(Number(d), p + |d|)
  {
    hide IsInteger, IsFraction, IsExponent, At, Joined;
    var minus, whole, fraction, exponent :|
      IsInteger(whole) && IsFraction(fraction) && IsExponent(exponent) && d == Joined(minus, whole, fraction, exponent);
    JoinedIsRead(s, p, minus, whole, fraction, exponent);
    Slice(s, p, d);
    hide NumberEnd, IsNumber;
  }

  lemma JoinedIsRead(s: Bytes, p: nat, minus: bool, whole: Bytes, fraction: Bytes, exponent: Bytes)
    requires IsInteger(whole) && IsFraction(fraction) && IsExponent(exponent)
    requires var d := Joined(minus, whole, fraction, exponent); At(s, p, d) && Stops(s, p + |d|)
    ensures p < |s| && NumberEnd(s, p) == Some(p + |Joined(minus, whole, fraction, exponent)|)
  {
    hide At, IsInteger, IsFraction, IsExponent, NumberEnd, Stops;
    var sign := if minus then "-" else "";
    AtParts(s, p, sign, whole + (fraction + exponent));
    AtParts(s, p + |sign|, whole, fraction + exponent);
    AtParts(s, p + |sign| + |whole|, fraction, exponent);
    SignIs(s, p, sign, whole);
    PartsAreRead(s, p + |sign|, whole, fraction, exponent);
    hide IntegerEnd, DecimalsEnd;
    EndIs(s, p);
  }

  lemma Slice(s: Bytes, p: nat, d: Bytes)
    requires At(s, p, d)
    ensures p + |d| <= |s| && s[p..p + |d|] == d
  {}

  lemma EndIs(s: Bytes, p: nat)
    requires p < |s|
    ensures var a := IntegerEnd(s, if s[p] == '-' then p + 1 else p);
      NumberEnd(s, p) == if a.Some? then DecimalsEnd(s, a.value) else None
  {
    hide IntegerEnd, DecimalsEnd;
  }

  lemma PartsAreRead(s: Bytes, a: nat, whole: Bytes, fraction: Bytes, exponent: Bytes)
    requires IsInteger(whole) && IsFraction(fraction) && IsExponent(exponent)
    requires At(s, a, whole) && At(s, a + |whole|, fraction) && At(s, a + |whole| + |fraction|, exponent)
    requires Stops(s, a + |whole| + |fraction| + |exponent|)
    ensures IntegerEnd(s, a) == Some(a + |whole|)
    ensures DecimalsEnd(s, a + |whole|) == Some(a + |whole| + |fraction| + |exponent|)
  {
    hide At, IsInteger, IsFraction, IsExponent, IntegerEnd, FractionEnd, ExponentEnd, Stops;
    PartsMeet(s, a, whole, fraction, exponent);
    IntegerOver(s, a, whole);
    FractionOver(s, a + |whole|, fraction);
    ExponentOver(s, a + |whole| + |fraction|, exponent);
  }

  lemma SignIs(s: Bytes, p: nat, sign: Bytes, whole: Bytes)
    requires IsInteger(whole) && At(s, p, sign) && At(s, p + |sign|, whole) && (sign == "" || sign == "-")
    ensures p < |s| && (s[p] == '-' <==> sign == "-") && (sign == "" ==> IsDigit(s[p]))
  {
    assert s[p + |sign| + 0] == whole[0];
    if sign == "-" {
      assert s[p + 0] == sign[0];
    }
  }

  /** No part of a number begins with what could belong to the part before it. */
  lemma PartsMeet(s: Bytes, a: nat, whole: Bytes, fraction: Bytes, exponent: Bytes)
    requires At(s, a + |whole|, fraction) && At(s, a + |whole| + |fraction|, exponent)
    requires IsFraction(fraction) && IsExponent(exponent) && Stops(s, a + |whole| + |fraction| + |exponent|)
    ensures NoDigit(s, a + |whole|) && NoDigit(s, a + |whole| + |fraction|)
    ensures var q := a + |whole| + |fraction|; q < |s| ==> s[q] != '.'
  {
    if fraction != [] {
      AtFirst(s, a + |whole|, fraction);
    }
    if exponent != [] {
      AtFirst(s, a + |whole| + |fraction|, exponent);
    }
  }

  lemma {:induction false} RunIsDigits(s: Bytes, p: nat)
    requires p <= |s|
    ensures AllDigits(s[p..DigitRun(s, p)])
    decreases |s| - p
  {
    if p < |s| && IsDigit(s[p]) {
      RunIsDigits(s, p + 1);
      assert s[p..DigitRun(s, p)] == [s[p]] + s[p + 1..DigitRun(s, p + 1)];
    }
  }

  lemma FractionIsFraction(s: Bytes, p: nat)
    requires p <= |s| && FractionEnd(s, p).Some?
    ensures IsFraction(s[p..FractionEnd(s, p).value])
  {
    var q := FractionEnd(s, p).value;
    if q > p {
      RunIsDigits(s, p + 1);
      assert s[p..q][1..] == s[p + 1..q];
    }
    hide DigitRun;
  }

  lemma ExponentIsExponent(s: Bytes, p: nat)
    requires p <= |s| && ExponentEnd(s, p).Some?
    ensures IsExponent(s[p..ExponentEnd(s, p).value])
  {
    var q := ExponentEnd(s, p).value;
    if q > p {
      RunIsDigits(s, p + 1);
      if s[p + 1] == '+' || s[p + 1] == '-' {
        RunIsDigits(s, p + 2);
        assert s[p + 1..q][1..] == s[p + 2..q];
      }
      assert s[p..q][1..] == s[p + 1..q];
    }
    hide DigitRun;
  }

  /** And nothing but a number is read as one. */
  lemma OnlyNumbersAreRead(s: Bytes, p: nat)
    requires p <= |s| && ReadNumber(s, p).Done?
    ensures IsNumber(s[p..ReadNumber(s, p).next]) && ReadNumber(s, p).value == Number(s[p..ReadNumber(s, p).next])
  {
    var a := if p < |s| && s[p] == '-' then p + 1 else p;
    var b := IntegerEnd(s, a).value;
    var c, d := FractionEnd(s, b).value, ReadNumber(s, p).next;
    RunIsDigits(s, a);
    FractionIsFraction(s, b);
    ExponentIsExponent(s, c);
    assert IsInteger(s[a..b]) by { hide FractionEnd, ExponentEnd; }
    assert d == ExponentEnd(s, c).value by { hide DigitRun, IntegerEnd, FractionEnd, ExponentEnd; }
    hide *;
    FourSlices(s, p, a, b, c, d);
    assert s[p..a] == if a == p + 1 then "-" else "";
    assert s[p..d] == Joined(a == p + 1, s[a..b], s[b..c], s[c..d]);
  }

  lemma FourSlices(s: Bytes, p: nat, a: nat, b: nat, c: nat, d: nat)
    requires p <= a <= b <= c <= d <= |s|
    ensures s[p..d] == s[p..a] + (s[a..b] + (s[b..c] + s[c..d]))
  {}

  // ---------------------------------------------------------------------------------------------
  // Values
  // ---------------------------------------------------------------------------------------------

  /** What can be written at all ... */
  ghost predicate Writable(v: Json) {
    match v
    case Text(t) => Utf8(t)
    case Number(d) => IsNumber(d)
    case Literal(w) => w == "true" || w == "false" || w == "null"
    case Array(items) => forall i :: 0 <= i < |items| ==> Writable(items[i])
    case Object(ms) => forall i :: 0 <= i < |ms| ==> Utf8(ms[i].key) && Writable(ms[i].value)
  }

  /** ... and how deep it may be: fewer than `depth` arrays and objects lie within each other. */
  ghost predicate Shallow(v: Json, depth: nat) {
    match v
    case Array(items) => depth > 1 && forall i :: 0 <= i < |items| ==> Shallow(items[i], depth - 1)
    case Object(ms) => depth > 1 && forall i :: 0 <= i < |ms| ==> Shallow(ms[i].value, depth - 1)
    case _ => true
  }

  function Quoted(t: Bytes): Bytes { "\"" + (Escaped(t) + "\"") }

  function Written(v: Json): Bytes
    decreases v, 1
  {
    match v
    case Text(t) => Quoted(t)
    case Number(d) => d
    case Literal(w) => w
    case Array(items) => if items == [] then "[]" else "[" + WrittenItems(v, items)
    case Object(ms) => if ms == [] then "{}" else "{" + WrittenMembers(v, ms)
  }

  function WrittenItems(ghost v: Json, items: seq<Json>): Bytes
    requires items != [] && v.Array? && forall x :: x in items ==> x in v.items
    decreases v, 0, |items|
  {
    assert items[0] in v.items;
    Written(items[0]) + (if |items| == 1 then "]" else "," + WrittenItems(v, items[1..]))
  }

  function WrittenMembers(ghost v: Json, ms: seq<Member>): Bytes
    requires ms != [] && v.Object? && forall x :: x in ms ==> x in v.members
    decreases v, 0, |ms|
  {
    assert ms[0] in v.members;
    Quoted(ms[0].key) + (":" + (Written(ms[0].value) + (if |ms| == 1 then "}" else "," + WrittenMembers(v, ms[1..]))))
  }

  /** How what is written begins. */
  lemma Begins(s: Bytes, p: nat, v: Json)
    requires Writable(v) && At(s, p, Written(v))
    ensures p < |s| && !IsSpace(s[p]) && s[p] != ']' && s[p] != '}'
    ensures match v
      case Text(_) => s[p] == '"'
      case Number(_) => IsDigit(s[p]) || s[p] == '-'
      case Literal(_) => s[p] == 't' || s[p] == 'f' || s[p] == 'n'
      case Array(_) => s[p] == '['
      case Object(_) => s[p] == '{'
  {
    match v
    case Number(d) =>
      NumberBegins(d);
      AtFirst(s, p, d);
    case _ =>
      hide Writable, At, Escaped;
      assert Written(v) != [];
      AtFirst(s, p, Written(v));
  }

  lemma NumberBegins(d: Bytes)
    requires IsNumber(d)
    ensures d != [] && (IsDigit(d[0]) || d[0] == '-')
  {
    var minus, whole, fraction, exponent :|
      IsInteger(whole) && IsFraction(fraction) && IsExponent(exponent) && d == Joined(minus, whole, fraction, exponent);
    assert minus ==> d[0] == "-"[0];
    assert !minus ==> d[0] == whole[0];
  }

  /** A value that is written and then followed by nothing that could belong to it is read back, unless it
      is too deep, and refused if it is. */
  lemma {:induction false} WrittenIsRead(s: Bytes, p: nat, depth: nat, v: Json)
    requires Writable(v) && At(s, p, Written(v)) && Stops(s, p + |Written(v)|)
    ensures ReadValue(s, p, depth) == if Shallow(v, depth) then Done(v, p + |Written(v)|) else Fail
    decreases v, 0, 2
  {
    Begins(s, p, v);
    match v
    case Text(t) =>
      AtParts(s, p, "\"", Escaped(t) + "\"");
      hide At, Utf8, ReadString;
      TextIsRead(s, p + 1, t);
    case Number(d) =>
      NumberIsRead(s, p, d);
      hide ReadNumber;
    case Literal(w) => LiteralIsRead(s, p, w);
    case Array(_) => ArrayIsRead(s, p, depth, v);
    case Object(_) => ObjectIsRead(s, p, depth, v);
  }

  lemma LiteralIsRead(s: Bytes, p: nat, w: Bytes)
    requires (w == "true" || w == "false" || w == "null") && At(s, p, w)
    ensures ReadLiteral(s, p) == Done(Literal(w), p + |w|)
  {
    AtStands(s, p, w);
    AtFirst(s, p, w);
  }

  lemma {:induction false} AtStands(s: Bytes, p: nat, w: Bytes)
    requires At(s, p, w)
    ensures Stands(s, p, w)
    decreases |w|
  {
    if w != [] {
      assert w == [w[0]] + w[1..];
      AtHead(s, p, w[0], w[1..]);
      AtStands(s, p + 1, w[1..]);
    }
  }

  lemma {:induction false} ArrayIsRead(s: Bytes, p: nat, depth: nat, v: Json)
    requires v.Array? && Writable(v) && At(s, p, Written(v))
    ensures ReadValue(s, p, depth) == if Shallow(v, depth) then Done(v, p + |Written(v)|) else Fail
    decreases v, 0, 1
  {
    hide At, ReadItems, ReadBrackets, ReadValue, Writable, WrittenItems;
    Begins(s, p, v);
    ArrayStep(s, p, depth);
    if v.items == [] {
      StandsThere(s, p, '[', ']');
      NothingInside(s, p + 1, if depth > 1 then depth - 1 else 0);
    } else {
      AtParts(s, p, "[", WrittenItems(v, v.items));
      if depth > 1 {
        ItemsAreRead(s, p + 1, depth - 1, v, v.items);
      }
    }
  }

  lemma ArrayStep(s: Bytes, p: nat, depth: nat)
    requires p < |s| && s[p] == '['
    ensures ReadValue(s, p, depth) ==
      if depth <= 1 then Fail
      else match ReadBrackets(s, p + 1, depth - 1)
        case Fail => Fail
        case Done(items, next) => Done(Array(items), next)
  {
    hide ReadBrackets;
  }

  lemma ObjectStep(s: Bytes, p: nat, depth: nat)
    requires p < |s| && s[p] == '{'
    ensures ReadValue(s, p, depth) ==
      if depth <= 1 then Fail
      else match ReadBraces(s, p + 1, depth - 1)
        case Fail => Fail
        case Done(ms, next) => Done(Object(ms), next)
  {
    hide ReadBraces;
  }

  lemma NothingInside(s: Bytes, p: nat, depth: nat)
    requires p < |s| && (s[p] == ']' || s[p] == '}')
    ensures s[p] == ']' ==> ReadBrackets(s, p, depth) == Done([], p + 1)
    ensures s[p] == '}' ==> ReadBraces(s, p, depth) == Done([], p + 1)
  {
    assert SkipSpace(s, p) == p;
    hide ReadItems, ReadMembers;
  }

  lemma ItemsStep(s: Bytes, p: nat, depth: nat)
    requires p < |s| && !IsSpace(s[p])
    ensures var r := ReadValue(s, p, depth);
      ReadItems(s, p, depth) == if r.Done? then MoreItems(s, r.next, depth, r.value) else Fail
    ensures s[p] != ']' ==> ReadBrackets(s, p, depth) == ReadItems(s, p, depth)
  {
    assert SkipSpace(s, p) == p;
    hide ReadValue, MoreItems;
  }

  lemma MoreItemsStep(s: Bytes, p: nat, depth: nat, v: Json)
    requires p < |s|
    ensures s[p] == ']' ==> MoreItems(s, p, depth, v) == Done([v], p + 1)
    ensures s[p] == ',' ==> MoreItems(s, p, depth, v) == Prepend([v], ReadItems(s, p + 1, depth))
  {
    assert s[p] == ']' || s[p] == ',' ==> SkipSpace(s, p) == p;
    hide ReadItems;
  }

  lemma FirstAndRest<T>(xs: seq<T>, p: T -> bool)
    requires xs != []
    ensures (forall i :: 0 <= i < |xs| ==> p(xs[i])) <==> p(xs[0]) && forall i :: 0 <= i < |xs| - 1 ==> p(xs[1..][i])
  {
    if p(xs[0]) && forall i :: 0 <= i < |xs| - 1 ==> p(xs[1..][i]) {
      forall i | 0 <= i < |xs| ensures p(xs[i]) {
        assert i > 0 ==> xs[i] == xs[1..][i - 1];
      }
    }
  }

  lemma {:induction false} ItemsAreRead(s: Bytes, p: nat, depth: nat, v: Json, items: seq<Json>)
    requires items != [] && v.Array? && Writable(v) && forall x :: x in items ==> x in v.items
    requires At(s, p, WrittenItems(v, items))
    ensures p < |s| && ReadItems(s, p, depth) == ReadBrackets(s, p, depth)
    ensures ReadItems(s, p, depth) ==
      if forall i :: 0 <= i < |items| ==> Shallow(items[i], depth) then Done(items, p + |WrittenItems(v, items)|)
      else Fail
    decreases v, 0, 0, |items|
  {
    hide At, ReadItems, ReadBrackets, ReadValue, MoreItems, Shallow;
    var first := items[0];
    assert first in v.items;
    var q := p + |Written(first)|;
    AtParts(s, p, Written(first), if |items| == 1 then "]" else "," + WrittenItems(v, items[1..]));
    Begins(s, p, first);
    AtFirst(s, q, if |items| == 1 then "]" else "," + WrittenItems(v, items[1..]));
    WrittenIsRead(s, p, depth, first);
    ItemsStep(s, p, depth);
    MoreItemsStep(s, q, depth, first);
    if |items| == 1 {
      assert items == [first];
    } else {
      assert items == [first] + items[1..];
      AtHead(s, q, ',', WrittenItems(v, items[1..]));
      ItemsAreRead(s, q + 1, depth, v, items[1..]);
      assert (forall i :: 0 <= i < |items| ==> Shallow(items[i], depth)) <==>
        Shallow(first, depth) && forall i :: 0 <= i < |items| - 1 ==> Shallow(items[1..][i], depth) by {
        hide *;
        FirstAndRest(items, x => Shallow(x, depth));
      }
    }
  }

  lemma {:induction false} ObjectIsRead(s: Bytes, p: nat, depth: nat, v: Json)
    requires v.Object? && Writable(v) && At(s, p, Written(v))
    ensures ReadValue(s, p, depth) == if Shallow(v, depth) then Done(v, p + |Written(v)|) else Fail
    decreases v, 0, 1
  {
    hide At, ReadMembers, ReadBraces, ReadValue, Writable, WrittenMembers;
    Begins(s, p, v);
    ObjectStep(s, p, depth);
    if v.members == [] {
      StandsThere(s, p, '{', '}');
      NothingInside(s, p + 1, if depth > 1 then depth - 1 else 0);
    } else {
      AtParts(s, p, "{", WrittenMembers(v, v.members));
      if depth > 1 {
        MembersAreRead(s, p + 1, depth - 1, v, v.members);
      }
    }
  }

  lemma MembersStep(s: Bytes, p: nat, depth: nat)
    requires p < |s| && s[p] == '"'
    ensures var r := ReadMember(s, p, depth);
      ReadMembers(s, p, depth) == if r.Done? then MoreMembers(s, r.next, depth, r.value) else Fail
    ensures ReadBraces(s, p, depth) == ReadMembers(s, p, depth)
  {
    assert SkipSpace(s, p) == p;
    hide ReadMember, MoreMembers;
  }

  lemma MoreMembersStep(s: Bytes, p: nat, depth: nat, m: Member)
    requires p < |s|
    ensures s[p] == '}' ==> MoreMembers(s, p, depth, m) == Done([m], p + 1)
    ensures s[p] == ',' ==> MoreMembers(s, p, depth, m) == Prepend([m], ReadMembers(s, p + 1, depth))
  {
    assert s[p] == '}' || s[p] == ',' ==> SkipSpace(s, p) == p;
    hide ReadMembers;
  }

  lemma KeyIsRead(s: Bytes, p: nat, key: Bytes, value: Bytes)
    requires Utf8(key) && At(s, p, Quoted(key) + (":" + value)) && value != [] && !IsSpace(value[0])
    ensures s[p] == '"' && ReadKey(s, p) == Done(key, p + |Quoted(key)| + 1) && At(s, p + |Quoted(key)| + 1, value)
  {
    hide At, Utf8, ReadString, Escaped;
    var q := p + |Quoted(key)|;
    AtParts(s, p, Quoted(key), ":" + value);
    AtParts(s, p, "\"", Escaped(key) + "\"");
    AtFirst(s, p, "\"");
    TextIsRead(s, p + 1, key);
    AtParts(s, q, ":", value);
    AtFirst(s, q, ":");
    AtFirst(s, q + 1, value);
    assert SkipSpace(s, p) == p && SkipSpace(s, q) == q && SkipSpace(s, q + 1) == q + 1;
  }

  lemma MemberStep(s: Bytes, p: nat, depth: nat, key: Bytes, v: nat)
    requires p <= |s| && ReadKey(s, p) == Done(key, v)
    ensures ReadMember(s, p, depth) ==
      match ReadValue(s, v, depth)
      case Fail => Fail
      case Done(value, next) => Done(Member(key, value), next)
  {
    hide ReadKey, ReadValue;
  }

  lemma {:induction false} MemberIsRead(s: Bytes, p: nat, depth: nat, v: Json, m: Member, rest: Bytes)
    requires v.Object? && Writable(v) && m in v.members
    requires At(s, p, Quoted(m.key) + (":" + (Written(m.value) + rest)))
    requires rest != [] && (rest[0] == ',' || rest[0] == '}')
    ensures var q := p + |Quoted(m.key)| + 1 + |Written(m.value)|;
      && p < |s| && s[p] == '"' && At(s, q, rest)
      && ReadMember(s, p, depth) == if Shallow(m.value, depth) then Done(m, q) else Fail
    decreases v, 0, 0, 0
  {
    hide At, ReadMember, ReadValue, Shallow, Quoted, ReadKey, IsSpace;
    var value := Written(m.value);
    assert Writable(m.value) && Utf8(m.key);
    hide Writable, Utf8;
    assert At(value + rest, 0, value + rest) by { WholeAt(value + rest); }
    AtParts(value + rest, 0, value, rest);
    Begins(value + rest, 0, m.value);
    KeyIsRead(s, p, m.key, value + rest);
    var a := p + |Quoted(m.key)| + 1;
    AtParts(s, a, value, rest);
    AtFirst(s, a + |value|, rest);
    WrittenIsRead(s, a, depth, m.value);
    MemberStep(s, p, depth, m.key, a);
  }

  lemma WholeAt(t: Bytes)
    ensures At(t, 0, t)
  {}

  lemma {:induction false} MembersAreRead(s: Bytes, p: nat, depth: nat, v: Json, ms: seq<Member>)
    requires ms != [] && v.Object? && Writable(v) && forall x :: x in ms ==> x in v.members
    requires At(s, p, WrittenMembers(v, ms))
    ensures p < |s| && ReadMembers(s, p, depth) == ReadBraces(s, p, depth)
    ensures ReadMembers(s, p, depth) ==
      if forall i :: 0 <= i < |ms| ==> Shallow(ms[i].value, depth) then Done(ms, p + |WrittenMembers(v, ms)|)
      else Fail
    decreases v, 0, 0, |ms|
  {
    hide At, ReadMembers, ReadBraces, ReadMember, MoreMembers, Shallow, Quoted, Writable;
    var m := ms[0];
    assert m in v.members;
    var rest := if |ms| == 1 then "}" else "," + WrittenMembers(v, ms[1..]);
    MemberIsRead(s, p, depth, v, m, rest);
    var q := p + |Quoted(m.key)| + 1 + |Written(m.value)|;
    AtFirst(s, q, rest);
    MembersStep(s, p, depth);
    MoreMembersStep(s, q, depth, m);
    if |ms| == 1 {
      assert ms == [m];
    } else {
      assert ms == [m] + ms[1..];
      AtHead(s, q, ',', WrittenMembers(v, ms[1..]));
      MembersAreRead(s, q + 1, depth, v, ms[1..]);
      assert (forall i :: 0 <= i < |ms| ==> Shallow(ms[i].value, depth)) <==>
        Shallow(m.value, depth) && forall i :: 0 <= i < |ms| - 1 ==> Shallow(ms[1..][i].value, depth) by {
        hide *;
        FirstAndRest(ms, (x: Member) => Shallow(x.value, depth));
      }
    }
  }

  /** A text that is one object, with blanks around it or without: at most 127 arrays and objects may lie
      within each other, the outermost counted in. */
  lemma ObjectIsReadBack(before: Bytes, ms: seq<Member>, after: Bytes)
    requires Writable(Object(ms)) && Blank(before) && Blank(after)
    ensures ReadObject(before + (Written(Object(ms)) + after)) == if Shallow(Object(ms), 128) then Some(ms) else None
  {
    hide At, ReadValue, Shallow, Writable, Written, SkipSpace, ReadObject, Stops;
    var v, text := Object(ms), Written(Object(ms));
    WholeAt(text);
    Begins(text, 0, v);
    var s := before + (text + after);
    ThreeParts(before, text, after);
    BlanksAround(s, before, text, after);
    WrittenIsRead(s, |before|, 128, v);
    ReadObjectIs(s, |before|, ms, |before| + |text|);
  }

  /** Space, tab, line feed and carriage return (RFC 8259, section 2). */
  ghost predicate Blank(w: Bytes) {
    forall i :: 0 <= i < |w| ==> w[i] == ' ' || w[i] == '\t' || w[i] == '\n' || w[i] == '\r'
  }

  lemma BlanksAround(s: Bytes, before: Bytes, text: Bytes, after: Bytes)
    requires text != [] && !IsSpace(text[0]) && Blank(before) && Blank(after)
    requires At(s, 0, before) && At(s, |before|, text) && At(s, |before| + |text|, after)
    requires |s| == |before| + |text| + |after|
    ensures SkipSpace(s, 0) == |before| && SkipSpace(s, |before| + |text|) == |s| && Stops(s, |before| + |text|)
  {
    assert forall i :: 0 <= i < |before| ==> IsSpace(before[i]);
    hide At, IsSpace, SkipSpace, Stops;
    AtFirst(s, |before|, text);
    SkipSpaceOver(s, 0, before);
    SpaceToEnd(s, |before| + |text|, after);
  }

  lemma ThreeParts(a: Bytes, b: Bytes, c: Bytes)
    ensures var s := a + (b + c); At(s, 0, a) && At(s, |a|, b) && At(s, |a| + |b|, c)
  {
    var s, bc := a + (b + c), b + c;
    WholeAt(s);
    hide At;
    AtParts(s, 0, a, bc);
    AtParts(s, |a|, b, c);
  }

  lemma ReadObjectIs(s: Bytes, p: nat, ms: seq<Member>, q: nat)
    requires SkipSpace(s, 0) == p && q <= |s| && SkipSpace(s, q) == |s|
    ensures ReadValue(s, p, 128) == Done(Object(ms), q) ==> ReadObject(s) == Some(ms)
    ensures ReadValue(s, p, 128) == Fail ==> ReadObject(s) == None
  {
    hide ReadValue, SkipSpace;
  }

  lemma {:induction false} SpaceToEnd(s: Bytes, p: nat, w: Bytes)
    requires At(s, p, w) && p + |w| == |s| && Blank(w)
    ensures SkipSpace(s, p) == |s| && Stops(s, p)
    decreases |w|
  {
    if w != [] {
      assert s[p] == w[0];
      assert At(s, p + 1, w[1..]);
      SpaceToEnd(s, p + 1, w[1..]);
    }
  }
}
