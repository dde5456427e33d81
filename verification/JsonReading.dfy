/** How the reader behaves on parts of a text whose rest is not known. */
module JsonReading {
  import opened Common
  import opened Decimals
  import opened Json

  // ---------------------------------------------------------------------------------------------
  // Parts of a text
  // ---------------------------------------------------------------------------------------------

  /** The text `t` stands in `s` at position `p`. */
  ghost predicate At(s: Bytes, p: nat, t: Bytes) {
    p + |t| <= |s| && forall i :: 0 <= i < |t| ==> s[p + i] == t[i]
  }

  lemma AtParts(s: Bytes, p: nat, a: Bytes, b: Bytes)
    requires At(s, p, a + b)
    ensures At(s, p, a) && At(s, p + |a|, b)
  {
    forall i | 0 <= i < |a| ensures s[p + i] == a[i] {
      assert (a + b)[i] == a[i];
    }
    forall i | 0 <= i < |b| ensures s[p + |a| + i] == b[i] {
      assert (a + b)[|a| + i] == b[i];
    }
  }

  lemma AtFirst(s: Bytes, p: nat, t: Bytes)
    requires At(s, p, t) && t != []
    ensures p < |s| && s[p] == t[0]
  {
    assert s[p + 0] == t[0];
  }

  lemma AtHead(s: Bytes, p: nat, c: char, b: Bytes)
    requires At(s, p, [c] + b)
    ensures s[p] == c && At(s, p + 1, b)
  {
    AtParts(s, p, [c], b);
    assert s[p + 0] == [c][0];
  }

  lemma {:induction false} SkipSpaceOver(s: Bytes, p: nat, w: Bytes)
    requires At(s, p, w) && forall i :: 0 <= i < |w| ==> IsSpace(w[i])
    requires p + |w| < |s| && !IsSpace(s[p + |w|])
    ensures SkipSpace(s, p) == p + |w|
    decreases |w|
  {
    if w != [] {
      assert s[p] == w[0];
      assert At(s, p + 1, w[1..]);
      SkipSpaceOver(s, p + 1, w[1..]);
    }
  }

  // ---------------------------------------------------------------------------------------------
  // Strings
  // ---------------------------------------------------------------------------------------------

  /** No quote, no backslash, no control character. */
  ghost predicate Plain(s: Bytes) {
    forall i :: 0 <= i < |s| ==> s[i] >= ' ' && s[i] != '"' && s[i] != '\\'
  }

  /** What can stand between quotes as it is. Texts of the program are always valid UTF-8. */
  ghost predicate Readable(s: Bytes) { Plain(s) && Utf8(s) }

  lemma {:induction false} AsciiIsUtf8(s: Bytes, i: nat)
    requires i <= |s| && forall j :: i <= j < |s| ==> s[j] as nat < 0x80
    ensures Utf8From(s, i)
    decreases |s| - i
  {
    if i < |s| {
      AsciiIsUtf8(s, i + 1);
    }
  }

  lemma AsciiIsReadable(s: Bytes)
    requires forall i :: 0 <= i < |s| ==> ' ' <= s[i] && s[i] as nat < 0x80 && s[i] != '"' && s[i] != '\\'
    ensures Readable(s)
  {
    AsciiIsUtf8(s, 0);
    hide Utf8From;
  }

  lemma {:induction false} ReadPlainText(s: Bytes, p: nat, t: Bytes)
    requires Plain(t) && At(s, p, t) && p + |t| < |s| && s[p + |t|] == '"'
    ensures ReadText(s, p) == Done(t, p + |t| + 1)
    decreases |t|
  {
    if t != [] {
      assert s[p] == t[0];
      assert At(s, p + 1, t[1..]);
      ReadPlainText(s, p + 1, t[1..]);
      assert t == [t[0]] + t[1..];
    }
  }

  lemma ReadReadable(s: Bytes, p: nat, t: Bytes)
    requires Readable(t) && At(s, p, t) && p + |t| < |s| && s[p + |t|] == '"'
    ensures ReadString(s, p) == Done(t, p + |t| + 1)
  {
    hide Utf8, ReadText, At;
    ReadPlainText(s, p, t);
  }

  /** A token that reads back as long as it is written is plain, and is what is written. */
  lemma {:induction false} FullLengthText(s: Bytes, p: nat)
    requires p <= |s| && ReadText(s, p).Done?
    requires p + |ReadText(s, p).value| + 1 == ReadText(s, p).next
    ensures Plain(ReadText(s, p).value) && At(s, p, ReadText(s, p).value)
    decreases |s| - p
  {
    hide ReadEscape;
    if s[p] != '"' && s[p] != '\\' {
      FullLengthText(s, p + 1);
    }
  }

  /** The exact condition for a raw string to survive between quotes. */
  lemma TextSurvivesIff(s: Bytes, p: nat, t: Bytes)
    requires At(s, p, t) && p + |t| < |s| && s[p + |t|] == '"'
    ensures ReadString(s, p) == Done(t, p + |t| + 1) <==> Readable(t)
  {
    hide Utf8, At, Plain, ReadEscape;
    if Readable(t) {
      ReadReadable(s, p, t);
    } else if ReadString(s, p) == Done(t, p + |t| + 1) {
      FullLengthText(s, p);
    }
  }

  lemma {:induction false} HexElsewhere(s: Bytes, d: nat, t: Bytes, p: nat, k: nat, high: nat)
    requires At(s, d, t) && Hex(t, p, k, high).Some?
    ensures Hex(s, d + p, k, high) == Hex(t, p, k, high)
    decreases k
  {
    if k > 0 {
      assert s[d + p] == t[p];
      HexElsewhere(s, d, t, p + 1, k - 1, high * 16 + HexDigit(t[p]).value);
    }
  }

  lemma EscapeElsewhere(s: Bytes, d: nat, t: Bytes, p: nat)
    requires At(s, d, t) && ReadEscape(t, p).Done?
    ensures ReadEscape(s, d + p) == Moved(ReadEscape(t, p), d)
  {
    assert s[d + p] == t[p];
    if Unescape(t[p]).None? {
      HexElsewhere(s, d, t, p + 1, 4, 0);
      var n := Hex(t, p + 1, 4, 0).value;
      if 0xD800 <= n < 0xDC00 {
        assert s[d + (p + 5)] == t[p + 5] && s[d + (p + 6)] == t[p + 6];
        HexElsewhere(s, d, t, p + 7, 4, 0);
      }
      hide Hex, Encoded;
    }
  }

  /** A string that is read inside one text is read alike wherever this text stands. */
  lemma {:induction false} TextElsewhere(s: Bytes, d: nat, t: Bytes, p: nat)
    requires At(s, d, t) && p <= |t| && ReadText(t, p).Done?
    ensures ReadText(s, d + p) == Moved(ReadText(t, p), d)
    decreases |t| - p
  {
    hide ReadEscape;
    assert s[d + p] == t[p];
    if t[p] == '\\' {
      EscapeElsewhere(s, d, t, p + 1);
      TextElsewhere(s, d, t, ReadEscape(t, p + 1).next);
    } else if t[p] != '"' {
      TextElsewhere(s, d, t, p + 1);
    }
  }

  ghost function Moved<T>(r: Read<T>, d: nat): Read<T> {
    match r
    case Fail => Fail
    case Done(value, next) => Done(value, d + next)
  }

  // ---------------------------------------------------------------------------------------------
  // Integers
  // ---------------------------------------------------------------------------------------------

  ghost predicate IsInteger(d: Bytes) { d != [] && AllDigits(d) && (|d| > 1 ==> d[0] != '0') }

  lemma {:induction false} DigitRunOver(s: Bytes, p: nat, d: Bytes)
    requires At(s, p, d) && AllDigits(d) && p + |d| < |s| && !IsDigit(s[p + |d|])
    ensures DigitRun(s, p) == p + |d|
    decreases |d|
  {
    if d != [] {
      assert s[p] == d[0];
      assert At(s, p + 1, d[1..]);
      DigitRunOver(s, p + 1, d[1..]);
    }
  }

  /** A value may be followed by a comma, a closing brace or the line break before one. */
  ghost predicate EndsValue(c: char) { c == ',' || c == '}' || c == '\n' }

  lemma ReadInteger(s: Bytes, p: nat, d: Bytes, depth: nat)
    requires IsInteger(d) && At(s, p, d) && p + |d| < |s| && EndsValue(s[p + |d|])
    ensures ReadValue(s, p, depth) == Done(Number(d), p + |d|)
  {
    DigitRunOver(s, p, d);
    assert s[p..p + |d|] == d;
    assert s[p + 0] == d[0] && IsDigit(d[0]);
    hide DigitRun;
  }

  lemma PrintedU64(n: u64)
    ensures IsInteger(Print(n)) && AsU64(Print(n)) == Some(n)
  {
    ValueOfPrint(n);
  }

  // ---------------------------------------------------------------------------------------------
  // Members
  // ---------------------------------------------------------------------------------------------

  lemma ReadMembersStep(s: Bytes, p: nat, depth: nat, m: Member, q: nat)
    requires p <= |s| && ReadMember(s, p, depth) == Done(m, q) && q < |s|
    ensures s[q] == ',' ==> ReadMembers(s, p, depth) == Prepend([m], ReadMembers(s, q + 1, depth))
    ensures IsSpace(s[q]) && SkipSpace(s, q) < |s| && s[SkipSpace(s, q)] == '}' ==>
      ReadMembers(s, p, depth) == Done([m], SkipSpace(s, q) + 1)
  {
    hide ReadMember;
  }

  ghost function Prepend<T>(ms: seq<T>, r: Read<seq<T>>): Read<seq<T>> {
    match r
    case Fail => Fail
    case Done(more, end) => Done(ms + more, end)
  }

  lemma PrependNone<T>(r: Read<seq<T>>)
    ensures Prepend([], r) == r
  {
    if r.Done? {
      assert [] + r.value == r.value;
    }
  }

  lemma PrependTwice<T>(m: T, ms: seq<T>, r: Read<seq<T>>)
    ensures Prepend([m], Prepend(ms, r)) == Prepend([m] + ms, r)
  {
    if r.Done? {
      assert [m] + (ms + r.value) == [m] + ms + r.value;
    }
  }

  /** The object is complete if only blanks follow its closing brace. */
  ghost function Finish(s: Bytes, r: Read<seq<Member>>): Option<seq<Member>> {
    if r.Done? && r.next <= |s| && SkipSpace(s, r.next) == |s| then Some(r.value) else None
  }

  lemma ReadObjectStep(s: Bytes)
    requires |s| > 1 && s[0] == '{' && SkipSpace(s, 1) < |s| && s[SkipSpace(s, 1)] == '"'
    ensures ReadObject(s) == Finish(s, ReadMembers(s, 1, TOP))
  {
    hide ReadMembers;
    assert SkipSpace(s, 0) == 0;
    assert ReadBraces(s, 1, TOP) == ReadMembers(s, 1, TOP);
    var r := ReadMembers(s, 1, TOP);
    assert ReadValue(s, 0, RECURSION_LIMIT) == if r.Done? then Done(Object(r.value), r.next) else Fail by {
      assert RECURSION_LIMIT - 1 == TOP;
      assert ReadValue(s, 0, RECURSION_LIMIT) == ReadNested(s, 0, RECURSION_LIMIT);
    }
  }

  lemma FirstMember(s: Bytes, p: nat, depth: nat)
    requires p <= |s| && ReadMembers(s, p, depth).Done?
    ensures ReadKey(s, p).Done?
    ensures var ms := ReadMembers(s, p, depth).value; ms != [] && ms[0].key == ReadKey(s, p).value
  {
    hide ReadKey, ReadValue, SkipSpace;
  }

  /** Of two runs of members, the second decides about the keys it has. */
  lemma {:induction false} FieldOfBoth(ms: seq<Member>, more: seq<Member>, key: Bytes)
    ensures Field(ms + more, key) == if Field(more, key).Some? then Field(more, key) else Field(ms, key)
  {
    var all := ms + more;
    if more == [] {
      assert all == ms;
    } else {
      FieldOfBoth(ms, more[..|more| - 1], key);
      assert all[..|all| - 1] == ms + more[..|more| - 1];
    }
  }

  lemma {:induction false} FieldIsMember(ms: seq<Member>, key: Bytes) returns (i: nat)
    requires Field(ms, key).Some?
    ensures i < |ms| && ms[i].key == key && ms[i].value == Field(ms, key).value
  {
    if ms[|ms| - 1].key == key {
      i := |ms| - 1;
    } else {
      i := FieldIsMember(ms[..|ms| - 1], key);
    }
  }

  lemma {:induction false} FirstKeyIsFound(ms: seq<Member>, key: Bytes)
    requires ms != [] && ms[0].key == key
    ensures Field(ms, key).Some?
  {
    if ms[|ms| - 1].key != key {
      FirstKeyIsFound(ms[..|ms| - 1], key);
    }
  }

  lemma BothInRange(fits: Bytes -> bool, ms: seq<Member>, more: seq<Member>)
    ensures AllInRange(fits, ms + more) <==> AllInRange(fits, ms) && AllInRange(fits, more)
  {
    var all := ms + more;
    assert forall i :: 0 <= i < |ms| ==> all[i] == ms[i];
    assert forall i :: 0 <= i < |more| ==> all[|ms| + i] == more[i];
  }

  /** The number is written in this value, however deep. */
  ghost predicate Occurs(digits: Bytes, v: Json) {
    match v
    case Number(d) => d == digits
    case Array(items) => exists i :: 0 <= i < |items| && Occurs(digits, items[i])
    case Object(ms) => exists i :: 0 <= i < |ms| && Occurs(digits, ms[i].value)
    case _ => false
  }

  /** No integer of 64 bits, and no number of at most 300 characters without exponent, is ever refused. */
  ghost predicate Allowed(fits: Bytes -> bool, digits: Bytes) {
    || AsU64(digits).Some? || fits(digits)
    || (|digits| <= 300 && forall i :: 0 <= i < |digits| ==> digits[i] != 'e' && digits[i] != 'E')
  }

  /** A value is refused for its numbers if and only if one of them is, wherever it stands. */
  lemma {:induction false} InRangeIff(fits: Bytes -> bool, v: Json)
    ensures InRange(fits, v) <==> forall digits :: Occurs(digits, v) ==> Allowed(fits, digits)
  {
    match v
    case Number(d) =>
      assert Occurs(d, v);
      hide AsU64;
    case Array(items) =>
      hide Allowed;
      forall i | 0 <= i < |items|
        ensures InRange(fits, items[i]) <==> forall digits :: Occurs(digits, items[i]) ==> Allowed(fits, digits)
      {
        InRangeIff(fits, items[i]);
      }
    case Object(ms) =>
      hide Allowed;
      forall i | 0 <= i < |ms|
        ensures InRange(fits, ms[i].value) <==> forall digits :: Occurs(digits, ms[i].value) ==> Allowed(fits, digits)
      {
        InRangeIff(fits, ms[i].value);
      }
    case _ =>
  }

  // ---------------------------------------------------------------------------------------------
  // Up to the last quote
  // ---------------------------------------------------------------------------------------------

  /** A string token ends at a quote, so none ends after the last one; hence no value that starts
      at or after `p` is longer than the distance to it. */
  lemma {:induction false} ReadMembersBound(s: Bytes, p: nat, depth: nat, lastQuote: nat, i: nat)
    requires p <= |s| && lastQuote < |s| && forall j :: lastQuote < j < |s| ==> s[j] != '"'
    requires ReadMembers(s, p, depth).Done?
    requires i < |ReadMembers(s, p, depth).value| && ReadMembers(s, p, depth).value[i].value.Text?
    ensures p + |ReadMembers(s, p, depth).value[i].value.text| < lastQuote
    decreases |s| - p
  {
    hide ReadKey, ReadValue, SkipSpace;
    if i > 0 {
      ReadMembersBound(s, SkipSpace(s, ReadMember(s, p, depth).next) + 1, depth, lastQuote, i - 1);
    }
  }

  /** If the quotes around `t` end with the last quote of all, then a member read from there on can
      have the value `t` only if `t` is readable. */
  lemma WholeTextIsReadable(s: Bytes, p: nat, depth: nat, v: nat, t: Bytes, i: nat)
    requires p <= |s| && ReadKey(s, p).Done? && ReadKey(s, p).next == v
    requires v + 1 + |t| < |s| && s[v] == '"'
    requires forall j :: v + 1 + |t| < j < |s| ==> s[j] != '"'
    requires ReadMembers(s, p, depth).Done?
    requires i < |ReadMembers(s, p, depth).value| && ReadMembers(s, p, depth).value[i].value == Text(t)
    ensures Readable(t)
  {
    hide ReadKey, ReadValue, SkipSpace, Readable, ReadText;
    if i == 0 {
      FirstTextIsReadable(s, p, depth, v, t);
    } else {
      TextEndsBy(s, v, depth, t);
      ReadMembersBound(s, SkipSpace(s, ReadMember(s, p, depth).next) + 1, depth, v + 1 + |t|, i - 1);
    }
  }

  lemma FirstTextIsReadable(s: Bytes, p: nat, depth: nat, v: nat, t: Bytes)
    requires p <= |s| && ReadKey(s, p).Done? && ReadKey(s, p).next == v
    requires v + 1 + |t| < |s| && s[v] == '"'
    requires forall j :: v + 1 + |t| < j < |s| ==> s[j] != '"'
    requires ReadMember(s, p, depth).Done? && ReadMember(s, p, depth).value.value == Text(t)
    ensures Readable(t)
  {
    hide ReadKey, Plain, ReadText, Utf8;
    FullLengthText(s, v + 1);
  }

  /** Whatever text starts at the quote `v`, it has begun after `v` and ended by the last quote. */
  lemma TextEndsBy(s: Bytes, v: nat, depth: nat, t: Bytes)
    requires v + 1 + |t| < |s| && s[v] == '"'
    requires forall j :: v + 1 + |t| < j < |s| ==> s[j] != '"'
    ensures ReadValue(s, v, depth).Done? ==> v < ReadValue(s, v, depth).next <= v + 2 + |t|
  {
    hide ReadText, Utf8;
  }

  // ---------------------------------------------------------------------------------------------
  // Across a raw line break
  // ---------------------------------------------------------------------------------------------

  /** Up to its last quote, `g` stands in `s` at `d`. There `g` ends with a brace, but `s` goes on
      with a comma and a line break, which no string can contain. */
  ghost predicate Fragment(s: Bytes, d: nat, g: Bytes) {
    && |g| >= 2 && g[|g| - 2] == '"' && g[|g| - 1] == '}'
    && d + |g| < |s| && s[d + |g| - 1] == ',' && s[d + |g|] == '\n'
    && forall i :: 0 < i <= |g| - 2 ==> s[d + i] == g[i]
  }

  lemma FragmentAt(s: Bytes, d: nat, g: Bytes, i: nat)
    requires Fragment(s, d, g) && 0 < i < |g|
    ensures g[|g| - 2] == '"' && g[|g| - 1] == '}' && d + |g| < |s|
    ensures if i < |g| - 1 then s[d + i] == g[i] else s[d + i] == ',' && s[d + i + 1] == '\n'
  {}

  lemma {:induction false} SameHex(s: Bytes, d: nat, g: Bytes, p: nat, k: nat, high: nat)
    requires Fragment(s, d, g) && 0 < p < |g|
    ensures Hex(s, d + p, k, high) == Hex(g, p, k, high)
    ensures Hex(g, p, k, high).Some? && k > 0 ==> p + k <= |g| - 2
    decreases k
  {
    FragmentAt(s, d, g, p);
    if k > 0 && HexDigit(g[p]).Some? {
      assert p < |g| - 2;
      hide Fragment;
      SameHex(s, d, g, p + 1, k - 1, high * 16 + HexDigit(g[p]).value);
    }
  }

  lemma SameSecondHalf(s: Bytes, d: nat, g: Bytes, p: nat, high: nat)
    requires Fragment(s, d, g) && 0 < p < |g| && high < 0x400
    ensures ReadSecondHalf(s, d + p, high) == Moved(ReadSecondHalf(g, p, high), d)
    ensures ReadSecondHalf(g, p, high).Done? ==> ReadSecondHalf(g, p, high).next < |g|
  {
    hide Fragment, Hex, Encoded;
    FragmentAt(s, d, g, p);
    if g[p] == '\\' {
      FragmentAt(s, d, g, p + 1);
      if g[p + 1] == 'u' {
        SameHex(s, d, g, p + 2, 4, 0);
      }
    }
  }

  lemma SameCodePointFrom(s: Bytes, d: nat, g: Bytes, p: nat, n: nat)
    requires Fragment(s, d, g) && 0 < p < |g| && n < 0x1_0000
    ensures CodePointFrom(s, d + p, n) == Moved(CodePointFrom(g, p, n), d)
    ensures CodePointFrom(g, p, n).Done? ==> CodePointFrom(g, p, n).next < |g|
  {
    hide Fragment, Encoded, ReadSecondHalf;
    if 0xD800 <= n < 0xDC00 {
      SameSecondHalf(s, d, g, p, n - 0xD800);
    }
  }

  lemma SameCodePoint(s: Bytes, d: nat, g: Bytes, p: nat)
    requires Fragment(s, d, g) && 0 < p < |g|
    ensures ReadCodePoint(s, d + p) == Moved(ReadCodePoint(g, p), d)
    ensures ReadCodePoint(g, p).Done? ==> ReadCodePoint(g, p).next < |g|
  {
    SameHex(s, d, g, p, 4, 0);
    hide Hex, CodePointFrom, Fragment;
    if Hex(g, p, 4, 0).Some? {
      HexBound(g, p, 4, 0, 1);
      SameCodePointFrom(s, d, g, p + 4, Hex(g, p, 4, 0).value);
    }
  }

  lemma PlainAfterBackslash()
    ensures Unescape(',').None? && Unescape('}').None? && Unescape('"').Some?
  {}

  lemma SameEscape(s: Bytes, d: nat, g: Bytes, p: nat)
    requires Fragment(s, d, g) && 0 < p < |g|
    ensures ReadEscape(s, d + p) == Moved(ReadEscape(g, p), d)
    ensures ReadEscape(g, p).Done? ==> ReadEscape(g, p).next < |g|
  {
    FragmentAt(s, d, g, p);
    if p < |g| - 1 {
      SameCodePoint(s, d, g, p + 1);
      hide Fragment, ReadCodePoint, Unescape;
    } else {
      PlainAfterBackslash();
      hide Fragment, ReadCodePoint, Unescape;
    }
  }

  lemma {:induction false} SameText(s: Bytes, d: nat, g: Bytes, p: nat)
    requires Fragment(s, d, g) && 0 < p < |g|
    ensures ReadText(s, d + p) == Moved(ReadText(g, p), d)
    ensures ReadText(g, p).Done? ==> ReadText(g, p).next < |g|
    decreases |g| - p
  {
    hide ReadEscape;
    FragmentAt(s, d, g, p);
    if p == |g| - 1 {
      NoTextFrom(s, d + p);
    } else if g[p] == '\\' {
      SameEscape(s, d, g, p + 1);
      hide Fragment;
      if ReadEscape(g, p + 1).Done? {
        SameText(s, d, g, ReadEscape(g, p + 1).next);
      }
    } else if g[p] != '"' {
      hide Fragment;
      SameText(s, d, g, p + 1);
    }
  }

  lemma NoTextFrom(s: Bytes, p: nat)
    requires p + 1 < |s| && s[p] == ',' && s[p + 1] == '\n'
    ensures ReadText(s, p) == Fail
  {
    assert ReadText(s, p + 1) == Fail;
  }

  lemma SameString(s: Bytes, d: nat, g: Bytes, p: nat)
    requires Fragment(s, d, g) && 0 < p < |g|
    ensures ReadString(s, d + p) == Moved(ReadString(g, p), d)
    ensures ReadString(g, p).Done? ==> ReadString(g, p).next < |g|
  {
    SameText(s, d, g, p);
    hide ReadText, Utf8, Fragment;
  }

  lemma {:induction false} SameSpace(s: Bytes, d: nat, g: Bytes, p: nat)
    requires Fragment(s, d, g) && 0 < p < |g|
    ensures SkipSpace(s, d + p) == d + SkipSpace(g, p) && SkipSpace(g, p) < |g|
    ensures p <= |g| - 2 ==> SkipSpace(g, p) <= |g| - 2
    decreases |g| - p
  {
    if p < |g| - 1 && IsSpace(g[p]) {
      SameSpace(s, d, g, p + 1);
    }
  }

  lemma {:induction false} SameDigits(s: Bytes, d: nat, g: Bytes, p: nat)
    requires Fragment(s, d, g) && 0 < p <= |g| - 2
    ensures DigitRun(s, d + p) == d + DigitRun(g, p) && DigitRun(g, p) <= |g| - 2
    decreases |g| - p
  {
    if IsDigit(g[p]) {
      SameDigits(s, d, g, p + 1);
    }
  }

  ghost function MovedEnd(q: Option<nat>, d: nat): Option<nat> {
    match q
    case None => None
    case Some(n) => Some(d + n)
  }

  lemma SameIntegerEnd(s: Bytes, d: nat, g: Bytes, p: nat)
    requires Fragment(s, d, g) && 0 < p <= |g| - 2
    ensures IntegerEnd(s, d + p) == MovedEnd(IntegerEnd(g, p), d)
    ensures IntegerEnd(g, p).Some? ==> IntegerEnd(g, p).value <= |g| - 2
  {
    SameDigits(s, d, g, p);
    hide DigitRun;
  }

  lemma SameFractionEnd(s: Bytes, d: nat, g: Bytes, p: nat)
    requires Fragment(s, d, g) && 0 < p <= |g| - 2
    ensures FractionEnd(s, d + p) == MovedEnd(FractionEnd(g, p), d)
    ensures FractionEnd(g, p).Some? ==> FractionEnd(g, p).value <= |g| - 2
  {
    if p < |g| - 2 {
      SameDigits(s, d, g, p + 1);
    }
    hide DigitRun;
  }

  lemma SameExponentEnd(s: Bytes, d: nat, g: Bytes, p: nat)
    requires Fragment(s, d, g) && 0 < p <= |g| - 2
    ensures ExponentEnd(s, d + p) == MovedEnd(ExponentEnd(g, p), d)
    ensures ExponentEnd(g, p).Some? ==> ExponentEnd(g, p).value <= |g| - 2
  {
    if p < |g| - 2 {
      SameDigits(s, d, g, p + 1);
      if p + 1 < |g| - 2 {
        SameDigits(s, d, g, p + 2);
      }
    }
    hide DigitRun;
  }

  lemma SameDecimalsEnd(s: Bytes, d: nat, g: Bytes, p: nat)
    requires Fragment(s, d, g) && 0 < p <= |g| - 2
    ensures DecimalsEnd(s, d + p) == MovedEnd(DecimalsEnd(g, p), d)
    ensures DecimalsEnd(g, p).Some? ==> DecimalsEnd(g, p).value <= |g| - 2
  {
    SameFractionEnd(s, d, g, p);
    hide FractionEnd, ExponentEnd, Fragment;
    if FractionEnd(g, p).Some? {
      SameExponentEnd(s, d, g, FractionEnd(g, p).value);
    }
  }

  lemma SameNumberEnd(s: Bytes, d: nat, g: Bytes, p: nat)
    requires Fragment(s, d, g) && 0 < p <= |g| - 2
    ensures NumberEnd(s, d + p) == MovedEnd(NumberEnd(g, p), d)
    ensures NumberEnd(g, p).Some? ==> NumberEnd(g, p).value <= |g| - 2
  {
    FragmentAt(s, d, g, p);
    var a := if g[p] == '-' then p + 1 else p;
    SameIntegerEnd(s, d, g, a);
    hide IntegerEnd, DecimalsEnd, Fragment;
    if IntegerEnd(g, a).Some? {
      SameDecimalsEnd(s, d, g, IntegerEnd(g, a).value);
    }
  }

  lemma SameNumber(s: Bytes, d: nat, g: Bytes, p: nat)
    requires Fragment(s, d, g) && 0 < p <= |g| - 2
    ensures ReadNumber(s, d + p) == Moved(ReadNumber(g, p), d)
    ensures ReadNumber(g, p).Done? ==> ReadNumber(g, p).next <= |g| - 2
  {
    SameNumberEnd(s, d, g, p);
    hide NumberEnd, Fragment;
    if NumberEnd(g, p).Some? {
      SameSlice(s, d, g, p, NumberEnd(g, p).value);
    }
  }

  lemma SameSlice(s: Bytes, d: nat, g: Bytes, p: nat, q: nat)
    requires Fragment(s, d, g) && 0 < p <= q <= |g| - 2
    ensures s[d + p..d + q] == g[p..q]
  {}

  lemma {:induction false} SameWord(s: Bytes, d: nat, g: Bytes, p: nat, w: Bytes)
    requires Fragment(s, d, g) && 0 < p <= |g| - 2
    requires '"' !in w
    ensures Stands(s, d + p, w) <==> Stands(g, p, w)
    ensures Stands(g, p, w) ==> p + |w| <= |g| - 2
    decreases |w|
  {
    if w != [] && g[p] == w[0] {
      assert p < |g| - 2;
      SameWord(s, d, g, p + 1, w[1..]);
    }
  }

  lemma SameLiteral(s: Bytes, d: nat, g: Bytes, p: nat)
    requires Fragment(s, d, g) && 0 < p <= |g| - 2
    ensures ReadLiteral(s, d + p) == Moved(ReadLiteral(g, p), d)
    ensures ReadLiteral(g, p).Done? ==> ReadLiteral(g, p).next <= |g| - 2
  {
    SameWord(s, d, g, p, "true");
    SameWord(s, d, g, p, "false");
    SameWord(s, d, g, p, "null");
    hide Stands, Fragment;
  }

  lemma SameColon(s: Bytes, d: nat, g: Bytes, p: nat, key: Bytes)
    requires Fragment(s, d, g) && 0 < p < |g|
    ensures ReadColon(s, d + p, key) == Moved(ReadColon(g, p, key), d)
    ensures ReadColon(g, p, key).Done? ==> ReadColon(g, p, key).next <= |g| - 2
  {
    SameSpace(s, d, g, p);
    var b := SkipSpace(g, p);
    FragmentAt(s, d, g, b);
    if b < |g| - 2 {
      SameSpace(s, d, g, b + 1);
    }
    hide SkipSpace, Fragment;
  }

  lemma SameQuotedKey(s: Bytes, d: nat, g: Bytes, p: nat)
    requires Fragment(s, d, g) && 0 < p <= |g| - 2
    ensures QuotedKey(s, d + p) == Moved(QuotedKey(g, p), d)
    ensures QuotedKey(g, p).Done? ==> QuotedKey(g, p).next <= |g| - 2
  {
    FragmentAt(s, d, g, p);
    SameString(s, d, g, p + 1);
    hide ReadString, ReadColon, Fragment;
    if g[p] == '"' && ReadString(g, p + 1).Done? {
      SameColon(s, d, g, ReadString(g, p + 1).next, ReadString(g, p + 1).value);
    }
  }

  lemma SameKey(s: Bytes, d: nat, g: Bytes, p: nat)
    requires Fragment(s, d, g) && 0 < p <= |g| - 2
    ensures ReadKey(s, d + p) == Moved(ReadKey(g, p), d)
    ensures ReadKey(g, p).Done? ==> ReadKey(g, p).next <= |g| - 2
  {
    hide SkipSpace, QuotedKey, Fragment;
    SameSpace(s, d, g, p);
    SameQuotedKey(s, d, g, SkipSpace(g, p));
  }

  // ---------------------------------------------------------------------------------------------
  // What follows the line break
  // ---------------------------------------------------------------------------------------------

  /** An array that is open at the line break cannot go on after it. For an object that is, it must
      be known how it goes on: not at all, or to the end of the whole text; or there is none. */
  ghost predicate GoesOn(s: Bytes, d: nat, g: Bytes, rest: Option<Read<seq<Member>>>) {
    && Fragment(s, d, g) && NoItems(s, d + |g|)
    && match rest
       case None => NoBrace(g)
       case Some(r) => OnlyMembers(s, d + |g|, r)
  }

  ghost predicate NoBrace(g: Bytes) { forall i :: 0 < i < |g| ==> g[i] != '{' }

  ghost predicate NoItems(s: Bytes, p: nat) { p <= |s| && forall depth :: ReadItems(s, p, depth) == Fail }

  /** From `p` on there are these members and then the end of the text, or nothing that can be read. */
  ghost predicate OnlyMembers(s: Bytes, p: nat, r: Read<seq<Member>>) {
    p <= |s| && (r.Done? ==> r.next == |s|) && forall depth :: ReadMembers(s, p, depth) == r
  }

  ghost predicate AtEnd<T>(s: Bytes, a: Read<T>) { a.Done? ==> a.next == |s| }

  /** A value that is closed by the quote is read alike in both texts. One that only the last brace
      of `g` closes is closed in `s` by the end of the text, if at all. */
  ghost predicate ValueRelated<T>(s: Bytes, d: nat, g: Bytes, a: Read<T>, b: Read<T>) {
    if b.Done? && b.next >= |g| then b.next == |g| && AtEnd(s, a) else a == Moved(b, d)
  }

  ghost predicate MembersRelated(s: Bytes, d: nat, g: Bytes, depth: nat, a: Read<seq<Member>>, b: Read<seq<Member>>)
    requires d + |g| <= |s|
  {
    && (b.Done? ==> b.next == |g| || b.next <= |g| - 2)
    && a == if b.Done? && b.next == |g| then Prepend(b.value, ReadMembers(s, d + |g|, depth)) else Moved(b, d)
  }

  lemma GoingOn(s: Bytes, d: nat, g: Bytes, rest: Option<Read<seq<Member>>>, depth: nat)
    requires GoesOn(s, d, g, rest)
    ensures Fragment(s, d, g) && d + |g| < |s| && ReadItems(s, d + |g|, depth) == Fail
  {
    hide ReadItems;
    FragmentAt(s, d, g, 1);
  }

  /** Only an object can be closed by the last brace. */
  lemma ObjectGoesOn(s: Bytes, d: nat, g: Bytes, rest: Option<Read<seq<Member>>>, p: nat, depth: nat)
    requires GoesOn(s, d, g, rest) && 0 < p < |g| && g[p] == '{'
    ensures d + |g| <= |s| && AtEnd(s, ReadMembers(s, d + |g|, depth))
  {
    hide Fragment, NoItems, ReadMembers;
  }

  lemma {:induction false} SameValue(s: Bytes, d: nat, g: Bytes, p: nat, depth: nat, rest: Option<Read<seq<Member>>>)
    requires GoesOn(s, d, g, rest) && 0 < p <= |g| - 2
    ensures ValueRelated(s, d, g, ReadValue(s, d + p, depth), ReadValue(g, p, depth))
    decreases |g| - p, 1
  {
    hide ReadString, ReadLiteral, ReadNumber, ReadNested, Fragment, GoesOn;
    GoingOn(s, d, g, rest, depth);
    FragmentAt(s, d, g, p);
    if g[p] == '"' {
      SameString(s, d, g, p + 1);
    } else if g[p] == '{' || g[p] == '[' {
      SameNested(s, d, g, p, depth, rest);
    } else if g[p] == 't' || g[p] == 'f' || g[p] == 'n' {
      SameLiteral(s, d, g, p);
    } else {
      SameNumber(s, d, g, p);
    }
  }

  lemma {:induction false} SameNested(s: Bytes, d: nat, g: Bytes, p: nat, depth: nat, rest: Option<Read<seq<Member>>>)
    requires GoesOn(s, d, g, rest) && 0 < p < |g| - 2 && (g[p] == '{' || g[p] == '[') && s[d + p] == g[p]
    requires d + |g| < |s|
    ensures ValueRelated(s, d, g, ReadNested(s, d + p, depth), ReadNested(g, p, depth))
    decreases |g| - p, 0
  {
    hide ReadBraces, ReadBrackets, ReadMembers, GoesOn;
    if depth > 1 {
      if g[p] == '{' {
        SameBraces(s, d, g, p + 1, depth - 1, rest);
        ObjectGoesOn(s, d, g, rest, p, depth - 1);
      } else {
        SameBrackets(s, d, g, p + 1, depth - 1, rest);
      }
    }
  }

  lemma {:induction false} SameBraces(s: Bytes, d: nat, g: Bytes, p: nat, depth: nat, rest: Option<Read<seq<Member>>>)
    requires GoesOn(s, d, g, rest) && 0 < p <= |g| - 2
    ensures MembersRelated(s, d, g, depth, ReadBraces(s, d + p, depth), ReadBraces(g, p, depth))
    decreases |g| - p, 4
  {
    GoingOn(s, d, g, rest, depth);
    SameSpace(s, d, g, p);
    FragmentAt(s, d, g, SkipSpace(g, p));
    SameMembers(s, d, g, p, depth, rest);
    hide ReadMembers, SkipSpace, Fragment, GoesOn;
  }

  lemma {:induction false} SameBrackets(s: Bytes, d: nat, g: Bytes, p: nat, depth: nat, rest: Option<Read<seq<Member>>>)
    requires GoesOn(s, d, g, rest) && 0 < p <= |g| - 2
    ensures ReadBrackets(s, d + p, depth) == Moved(ReadBrackets(g, p, depth), d)
    ensures ReadBrackets(g, p, depth).Done? ==> ReadBrackets(g, p, depth).next <= |g| - 2
    decreases |g| - p, 4
  {
    GoingOn(s, d, g, rest, depth);
    SameSpace(s, d, g, p);
    FragmentAt(s, d, g, SkipSpace(g, p));
    SameItems(s, d, g, p, depth, rest);
    hide ReadItems, SkipSpace, Fragment, GoesOn;
  }

  lemma {:induction false} SameItems(s: Bytes, d: nat, g: Bytes, p: nat, depth: nat, rest: Option<Read<seq<Member>>>)
    requires GoesOn(s, d, g, rest) && 0 < p <= |g| - 2
    ensures ReadItems(s, d + p, depth) == Moved(ReadItems(g, p, depth), d)
    ensures ReadItems(g, p, depth).Done? ==> ReadItems(g, p, depth).next <= |g| - 2
    decreases |g| - p, 3
  {
    hide ReadValue, Fragment, SkipSpace, MoreItems, GoesOn;
    GoingOn(s, d, g, rest, depth);
    SameSpace(s, d, g, p);
    var v := SkipSpace(g, p);
    SameValue(s, d, g, v, depth, rest);
    if ReadValue(g, v, depth).Done? {
      if ReadValue(g, v, depth).next < |g| {
        SameMoreItems(s, d, g, ReadValue(g, v, depth).next, depth, ReadValue(g, v, depth).value, rest);
      } else {
        NoItemsAtEnd(g, depth, ReadValue(g, v, depth).value);
        if ReadValue(s, d + v, depth).Done? {
          NoItemsAtEnd(s, depth, ReadValue(s, d + v, depth).value);
        }
      }
    }
  }

  /** At the end of a text, nothing more can be read. */
  lemma NoItemsAtEnd(s: Bytes, depth: nat, v: Json)
    ensures MoreItems(s, |s|, depth, v) == Fail
  {}

  lemma NoMembersAtEnd(s: Bytes, depth: nat, m: Member)
    ensures MoreMembers(s, |s|, depth, m) == Fail
  {}

  lemma {:induction false} SameMoreItems(s: Bytes, d: nat, g: Bytes, p: nat, depth: nat, v: Json,
                                         rest: Option<Read<seq<Member>>>)
    requires GoesOn(s, d, g, rest) && 0 < p < |g|
    ensures MoreItems(s, d + p, depth, v) == Moved(MoreItems(g, p, depth, v), d)
    ensures MoreItems(g, p, depth, v).Done? ==> MoreItems(g, p, depth, v).next <= |g| - 2
    decreases |g| - p, 0
  {
    hide SkipSpace, Fragment, ReadItems, GoesOn;
    GoingOn(s, d, g, rest, depth);
    SameSpace(s, d, g, p);
    var a := SkipSpace(g, p);
    FragmentAt(s, d, g, a);
    if a < |g| - 2 {
      SameItems(s, d, g, a + 1, depth, rest);
    }
  }

  lemma {:induction false} SameMember(s: Bytes, d: nat, g: Bytes, p: nat, depth: nat, rest: Option<Read<seq<Member>>>)
    requires GoesOn(s, d, g, rest) && 0 < p <= |g| - 2
    ensures ValueRelated(s, d, g, ReadMember(s, d + p, depth), ReadMember(g, p, depth))
    decreases |g| - p, 2
  {
    hide ReadKey, ReadValue, Fragment, GoesOn;
    GoingOn(s, d, g, rest, depth);
    SameKey(s, d, g, p);
    if ReadKey(g, p).Done? {
      SameValue(s, d, g, ReadKey(g, p).next, depth, rest);
    }
  }

  /** So the members up to there are read alike; and if they are read to the end of `g`, then in `s`
      reading goes on after the comma. */
  lemma {:induction false} SameMembers(s: Bytes, d: nat, g: Bytes, p: nat, depth: nat, rest: Option<Read<seq<Member>>>)
    requires GoesOn(s, d, g, rest) && 0 < p <= |g| - 2
    ensures MembersRelated(s, d, g, depth, ReadMembers(s, d + p, depth), ReadMembers(g, p, depth))
    decreases |g| - p, 3
  {
    hide ReadMember, Fragment, MoreMembers, MembersRelated, GoesOn;
    GoingOn(s, d, g, rest, depth);
    SameMember(s, d, g, p, depth, rest);
    var x := ReadMember(g, p, depth);
    if x.Done? && x.next < |g| {
      SameMoreMembers(s, d, g, x.next, depth, x.value, rest);
    } else {
      if x.Done? {
        NoMembersAtEnd(g, depth, x.value);
        if ReadMember(s, d + p, depth).Done? {
          NoMembersAtEnd(s, depth, ReadMember(s, d + p, depth).value);
        }
      }
      BothFail(s, d, g, depth);
    }
  }

  lemma BothFail(s: Bytes, d: nat, g: Bytes, depth: nat)
    requires d + |g| <= |s|
    ensures MembersRelated(s, d, g, depth, Fail, Fail)
  {}

  lemma {:induction false} SameMoreMembers(s: Bytes, d: nat, g: Bytes, p: nat, depth: nat, m: Member,
                                           rest: Option<Read<seq<Member>>>)
    requires GoesOn(s, d, g, rest) && 0 < p < |g|
    ensures MembersRelated(s, d, g, depth, MoreMembers(s, d + p, depth, m), MoreMembers(g, p, depth, m))
    decreases |g| - p, 0
  {
    hide SkipSpace, Fragment, ReadMembers, GoesOn;
    GoingOn(s, d, g, rest, depth);
    SameSpace(s, d, g, p);
    var a := SkipSpace(g, p);
    FragmentAt(s, d, g, a);
    if a < |g| - 2 {
      SameMembers(s, d, g, a + 1, depth, rest);
      if ReadMembers(g, a + 1, depth).Done? {
        PrependTwice(m, ReadMembers(g, a + 1, depth).value, ReadMembers(s, d + |g|, depth));
      }
    }
  }

  // ---------------------------------------------------------------------------------------------
  // What is read before the line break in any case
  // ---------------------------------------------------------------------------------------------

  /** Whatever follows: a value that ends before the last brace of `g` is read alike in `s`. */
  ghost predicate ReadAlike<T>(d: nat, g: Bytes, a: Read<T>, b: Read<T>) {
    b.Done? && b.next < |g| ==> a == Moved(b, d)
  }

  lemma {:induction false} AlikeValue(s: Bytes, d: nat, g: Bytes, p: nat, depth: nat)
    requires Fragment(s, d, g) && 0 < p <= |g| - 2
    ensures ReadAlike(d, g, ReadValue(s, d + p, depth), ReadValue(g, p, depth))
    decreases |g| - p, 1
  {
    hide ReadString, ReadLiteral, ReadNumber, ReadNested, Fragment;
    FragmentAt(s, d, g, p);
    if g[p] == '"' {
      SameString(s, d, g, p + 1);
    } else if g[p] == '{' || g[p] == '[' {
      AlikeNested(s, d, g, p, depth);
    } else if g[p] == 't' || g[p] == 'f' || g[p] == 'n' {
      SameLiteral(s, d, g, p);
    } else {
      SameNumber(s, d, g, p);
    }
  }

  lemma {:induction false} AlikeNested(s: Bytes, d: nat, g: Bytes, p: nat, depth: nat)
    requires Fragment(s, d, g) && 0 < p < |g| - 2 && (g[p] == '{' || g[p] == '[')
    requires d + |g| < |s| && s[d + p] == g[p]
    ensures ReadAlike(d, g, ReadNested(s, d + p, depth), ReadNested(g, p, depth))
    decreases |g| - p, 0
  {
    hide ReadBraces, ReadBrackets, Fragment;
    if depth > 1 {
      if g[p] == '{' {
        AlikeBraces(s, d, g, p + 1, depth - 1);
      } else {
        AlikeBrackets(s, d, g, p + 1, depth - 1);
      }
    }
  }

  lemma {:induction false} AlikeBraces(s: Bytes, d: nat, g: Bytes, p: nat, depth: nat)
    requires Fragment(s, d, g) && 0 < p <= |g| - 2
    ensures ReadAlike(d, g, ReadBraces(s, d + p, depth), ReadBraces(g, p, depth))
    decreases |g| - p, 4
  {
    hide ReadMembers, SkipSpace, Fragment;
    SameSpace(s, d, g, p);
    FragmentAt(s, d, g, SkipSpace(g, p));
    AlikeMembers(s, d, g, p, depth);
  }

  lemma {:induction false} AlikeBrackets(s: Bytes, d: nat, g: Bytes, p: nat, depth: nat)
    requires Fragment(s, d, g) && 0 < p <= |g| - 2
    ensures ReadAlike(d, g, ReadBrackets(s, d + p, depth), ReadBrackets(g, p, depth))
    decreases |g| - p, 4
  {
    hide ReadItems, SkipSpace, Fragment;
    SameSpace(s, d, g, p);
    FragmentAt(s, d, g, SkipSpace(g, p));
    AlikeItems(s, d, g, p, depth);
  }

  lemma {:induction false} AlikeItems(s: Bytes, d: nat, g: Bytes, p: nat, depth: nat)
    requires Fragment(s, d, g) && 0 < p <= |g| - 2
    ensures ReadAlike(d, g, ReadItems(s, d + p, depth), ReadItems(g, p, depth))
    decreases |g| - p, 3
  {
    hide ReadValue, Fragment, SkipSpace, MoreItems;
    SameSpace(s, d, g, p);
    var v := SkipSpace(g, p);
    AlikeValue(s, d, g, v, depth);
    var x := ReadValue(g, v, depth);
    if x.Done? {
      if x.next < |g| {
        AlikeMoreItems(s, d, g, x.next, depth, x.value);
      } else {
        NoItemsAtEnd(g, depth, x.value);
      }
    }
  }

  lemma {:induction false} AlikeMoreItems(s: Bytes, d: nat, g: Bytes, p: nat, depth: nat, v: Json)
    requires Fragment(s, d, g) && 0 < p < |g|
    ensures ReadAlike(d, g, MoreItems(s, d + p, depth, v), MoreItems(g, p, depth, v))
    decreases |g| - p, 0
  {
    hide SkipSpace, Fragment, ReadItems;
    SameSpace(s, d, g, p);
    var a := SkipSpace(g, p);
    FragmentAt(s, d, g, a);
    if a < |g| - 2 {
      AlikeItems(s, d, g, a + 1, depth);
    }
  }

  lemma {:induction false} AlikeMember(s: Bytes, d: nat, g: Bytes, p: nat, depth: nat)
    requires Fragment(s, d, g) && 0 < p <= |g| - 2
    ensures ReadAlike(d, g, ReadMember(s, d + p, depth), ReadMember(g, p, depth))
    decreases |g| - p, 2
  {
    hide ReadKey, ReadValue, Fragment;
    FragmentAt(s, d, g, p);
    SameKey(s, d, g, p);
    if ReadKey(g, p).Done? {
      AlikeValue(s, d, g, ReadKey(g, p).next, depth);
    }
  }

  /** Members that end with `g` itself go on in `s` after the comma. */
  ghost predicate MembersAlike(s: Bytes, d: nat, g: Bytes, depth: nat, a: Read<seq<Member>>, b: Read<seq<Member>>)
    requires d + |g| <= |s|
  {
    && ReadAlike(d, g, a, b)
    && (b.Done? && b.next >= |g| ==>
          b.next == |g| && a == Prepend(b.value, ReadMembers(s, d + |g|, depth)))
  }

  lemma {:induction false} AlikeMembers(s: Bytes, d: nat, g: Bytes, p: nat, depth: nat)
    requires Fragment(s, d, g) && 0 < p <= |g| - 2
    ensures MembersAlike(s, d, g, depth, ReadMembers(s, d + p, depth), ReadMembers(g, p, depth))
    decreases |g| - p, 3
  {
    hide ReadMember, Fragment, MoreMembers;
    FragmentAt(s, d, g, p);
    AlikeMember(s, d, g, p, depth);
    var x := ReadMember(g, p, depth);
    if x.Done? {
      if x.next < |g| {
        AlikeMoreMembers(s, d, g, x.next, depth, x.value);
      } else {
        NoMembersAtEnd(g, depth, x.value);
      }
    }
  }

  lemma {:induction false} AlikeMoreMembers(s: Bytes, d: nat, g: Bytes, p: nat, depth: nat, m: Member)
    requires Fragment(s, d, g) && 0 < p < |g|
    ensures MembersAlike(s, d, g, depth, MoreMembers(s, d + p, depth, m), MoreMembers(g, p, depth, m))
    decreases |g| - p, 0
  {
    hide SkipSpace, Fragment, ReadMembers;
    SameSpace(s, d, g, p);
    var a := SkipSpace(g, p);
    FragmentAt(s, d, g, a);
    if a < |g| - 2 {
      AlikeMembers(s, d, g, a + 1, depth);
      if ReadMembers(g, a + 1, depth).Done? {
        PrependTwice(m, ReadMembers(g, a + 1, depth).value, ReadMembers(s, d + |g|, depth));
      }
    }
  }

  lemma FinishFragment(s: Bytes, d: nat, g: Bytes, before: seq<Member>, r: Read<seq<Member>>, rest: Read<seq<Member>>)
    requires Fragment(s, d, g) && (r.Done? ==> r.next == |g| || 0 < r.next <= |g| - 2)
    ensures Finish(s, Prepend(before, if r.Done? && r.next == |g| then Prepend(r.value, rest) else Moved(r, d))) ==
      match Finish(g, r)
      case None => None
      case Some(ms) => Finish(s, Prepend(before + ms, rest))
  {
    if r.Done? && r.next <= |g| - 2 {
      SameSpace(s, d, g, r.next);
    } else if r.Done? && rest.Done? {
      assert before + (r.value + rest.value) == before + r.value + rest.value;
    }
  }

  lemma ReadMembersStops(s: Bytes, p: nat, v: nat, depth: nat)
    requires p <= |s| && ReadKey(s, p).Done? && ReadKey(s, p).next == v
    requires v + 2 < |s| && s[v] == s[v + 1] == s[v + 2] == '"'
    ensures ReadMembers(s, p, depth) == Fail
  {
    hide ReadKey, ReadMembers;
    assert ReadString(s, v + 1) == Done([], v + 2);
    assert ReadMember(s, p, depth) == Done(Member(ReadKey(s, p).value, Text([])), v + 2);
    assert MoreMembers(s, v + 2, depth, Member(ReadKey(s, p).value, Text([]))) == Fail;
    MembersFrom(s, p, depth);
  }

  lemma MembersFrom(s: Bytes, p: nat, depth: nat)
    requires p <= |s|
    ensures var r := ReadMember(s, p, depth);
      ReadMembers(s, p, depth) == if r.Done? then MoreMembers(s, r.next, depth, r.value) else Fail
  {
    hide ReadMember, MoreMembers;
  }
}
