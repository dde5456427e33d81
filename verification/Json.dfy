/**
  A reader of JSON texts (RFC 8259) as strict as the program's: a text is one value with nothing but
  blanks around it, strings are valid UTF-8 without control characters, and arrays and objects nest
  127 deep at most.
*/
module Json {
  import opened Common
  import opened Decimals

  /** A number is kept as it is written. */
  datatype Json =
    | Text(text: Bytes)
    | Number(digits: Bytes)
    | Literal(word: Bytes)
    | Array(items: seq<Json>)
    | Object(members: seq<Member>)

  datatype Member = Member(key: Bytes, value: Json)

  /** What was read, and the position after it. */
  datatype Read<T> = Fail | Done(value: T, next: nat)

  // ---------------------------------------------------------------------------------------------
  // Blanks and words
  // ---------------------------------------------------------------------------------------------

  predicate IsSpace(c: char) { c == ' ' || c == '\t' || c == '\n' || c == '\r' }

  function SkipSpace(s: Bytes, p: nat): (q: nat)
    requires p <= |s|
    ensures p <= q <= |s|
    ensures q < |s| ==> !IsSpace(s[q])
    decreases |s| - p
  {
    if p < |s| && IsSpace(s[p]) then SkipSpace(s, p + 1) else p
  }

  /** The word `w` stands in `s` at `p`. */
  predicate Stands(s: Bytes, p: nat, w: Bytes)
    ensures Stands(s, p, w) ==> w == [] || p + |w| <= |s|
    decreases |w|
  {
    w == [] || (p < |s| && s[p] == w[0] && Stands(s, p + 1, w[1..]))
  }

  function ReadLiteral(s: Bytes, p: nat): (r: Read<Json>)
    ensures r.Done? ==> p < r.next <= |s| && r.value.Literal?
  {
    if Stands(s, p, "true") then Done(Literal("true"), p + 4)
    else if Stands(s, p, "false") then Done(Literal("false"), p + 5)
    else if Stands(s, p, "null") then Done(Literal("null"), p + 4)
    else Fail
  }

  // ---------------------------------------------------------------------------------------------
  // Numbers (section 6)
  // ---------------------------------------------------------------------------------------------

  function DigitRun(s: Bytes, p: nat): (q: nat)
    requires p <= |s|
    ensures p <= q <= |s|
    decreases |s| - p
  {
    if p < |s| && IsDigit(s[p]) then DigitRun(s, p + 1) else p
  }

  /** Where at least one digit from `p` on ends. */
  function SomeDigits(s: Bytes, p: nat): (q: Option<nat>)
    requires p <= |s|
    ensures q.Some? ==> p < q.value <= |s|
  {
    if DigitRun(s, p) == p then None else Some(DigitRun(s, p))
  }

  /** An integer has no needless zero in front. */
  function IntegerEnd(s: Bytes, p: nat): (q: Option<nat>)
    requires p <= |s|
    ensures q.Some? ==> p < q.value <= |s|
  {
    if DigitRun(s, p) > p + 1 && s[p] == '0' then None else SomeDigits(s, p)
  }

  function FractionEnd(s: Bytes, p: nat): (q: Option<nat>)
    requires p <= |s|
    ensures q.Some? ==> p <= q.value <= |s|
  {
    if p < |s| && s[p] == '.' then SomeDigits(s, p + 1) else Some(p)
  }

  function ExponentEnd(s: Bytes, p: nat): (q: Option<nat>)
    requires p <= |s|
    ensures q.Some? ==> p <= q.value <= |s|
  {
    if p < |s| && (s[p] == 'e' || s[p] == 'E') then
      if p + 1 < |s| && (s[p + 1] == '+' || s[p + 1] == '-') then SomeDigits(s, p + 2) else SomeDigits(s, p + 1)
    else Some(p)
  }

  function NumberEnd(s: Bytes, p: nat): (q: Option<nat>)
    requires p <= |s|
    ensures q.Some? ==> p < q.value <= |s|
  {
    match IntegerEnd(s, if p < |s| && s[p] == '-' then p + 1 else p)
    case None => None
    case Some(a) => DecimalsEnd(s, a)
  }

  function DecimalsEnd(s: Bytes, p: nat): (q: Option<nat>)
    requires p <= |s|
    ensures q.Some? ==> p <= q.value <= |s|
  {
    match FractionEnd(s, p)
    case None => None
    case Some(a) => ExponentEnd(s, a)
  }

  function ReadNumber(s: Bytes, p: nat): (r: Read<Json>)
    requires p <= |s|
    ensures r.Done? ==> p < r.next <= |s| && r.value.Number?
  {
    match NumberEnd(s, p)
    case None => Fail
    case Some(q) => Done(Number(s[p..q]), q)
  }

  // ---------------------------------------------------------------------------------------------
  // Strings (section 7)
  // ---------------------------------------------------------------------------------------------

  predicate Within(s: Bytes, i: nat, low: nat, high: nat) { i < |s| && low <= s[i] as nat < high }

  /** Well-formed UTF-8 (RFC 3629, section 4) from `i` on. */
  predicate Utf8From(s: Bytes, i: nat)
    decreases |s| - i
  {
    if i >= |s| then i == |s|
    else if Within(s, i, 0, 0x80) then Utf8From(s, i + 1)
    else if Within(s, i, 0xC2, 0xE0) then Within(s, i + 1, 0x80, 0xC0) && Utf8From(s, i + 2)
    else if Within(s, i, 0xE0, 0xF0) then
      && Within(s, i + 1, if s[i] as nat == 0xE0 then 0xA0 else 0x80, if s[i] as nat == 0xED then 0xA0 else 0xC0)
      && Within(s, i + 2, 0x80, 0xC0) && Utf8From(s, i + 3)
    else
      && Within(s, i, 0xF0, 0xF5)
      && Within(s, i + 1, if s[i] as nat == 0xF0 then 0x90 else 0x80, if s[i] as nat == 0xF4 then 0x90 else 0xC0)
      && Within(s, i + 2, 0x80, 0xC0) && Within(s, i + 3, 0x80, 0xC0) && Utf8From(s, i + 4)
  }

  predicate Utf8(s: Bytes) { Utf8From(s, 0) }

  function Byte(n: nat): char
    requires n < 0x100
  {
    n as char
  }

  /** The UTF-8 encoding of a code point. */
  function Encoded(n: nat): (b: Bytes)
    requires n < 0x11_0000
    ensures |b| <= 4 && (n < 0x1_0000 ==> |b| <= 3)
  {
    if n < 0x80 then [Byte(n)]
    else if n < 0x800 then [Byte(0xC0 + n / 0x40), Byte(0x80 + n % 0x40)]
    else if n < 0x1_0000 then [Byte(0xE0 + n / 0x1000), Byte(0x80 + n / 0x40 % 0x40), Byte(0x80 + n % 0x40)]
    else
      [Byte(0xF0 + n / 0x4_0000), Byte(0x80 + n / 0x1000 % 0x40), Byte(0x80 + n / 0x40 % 0x40), Byte(0x80 + n % 0x40)]
  }

  function HexDigit(c: char): (d: Option<nat>)
    ensures d.Some? ==> d.value < 16
  {
    if '0' <= c <= '9' then Some((c - '0') as nat)
    else if 'a' <= c <= 'f' then Some((c - 'a') as nat + 10)
    else if 'A' <= c <= 'F' then Some((c - 'A') as nat + 10)
    else None
  }

  /** `k` hexadecimal digits from `p` on, after digits worth `high`. */
  function Hex(s: Bytes, p: nat, k: nat, high: nat): (n: Option<nat>)
    ensures n.Some? && k > 0 ==> p + k <= |s|
    decreases k
  {
    if k == 0 then Some(high)
    else if p >= |s| || HexDigit(s[p]).None? then None
    else Hex(s, p + 1, k - 1, high * 16 + HexDigit(s[p]).value)
  }

  lemma {:induction false} HexBound(s: Bytes, p: nat, k: nat, high: nat, bound: nat)
    requires high < bound && Hex(s, p, k, high).Some?
    ensures k == 4 ==> Hex(s, p, k, high).value < bound * 0x1_0000
    ensures k == 3 ==> Hex(s, p, k, high).value < bound * 0x1000
    ensures k == 2 ==> Hex(s, p, k, high).value < bound * 0x100
    ensures k == 1 ==> Hex(s, p, k, high).value < bound * 0x10
    ensures k == 0 ==> Hex(s, p, k, high).value < bound
    decreases k
  {
    if k > 0 {
      HexBound(s, p + 1, k - 1, high * 16 + HexDigit(s[p]).value, bound * 16);
    }
  }

  function Unescape(c: char): Option<char> {
    if c == '"' || c == '\\' || c == '/' then Some(c)
    else if c == 'n' then Some('\n')
    else if c == 't' then Some('\t')
    else if c == 'r' then Some('\r')
    else if c == 'b' then Some('\U{0008}')
    else if c == 'f' then Some('\U{000C}')
    else None
  }

  /** Four hexadecimal digits: a code point, or the first half of one whose second half follows. */
  function ReadCodePoint(s: Bytes, p: nat): (r: Read<Bytes>)
    ensures r.Done? ==> p + |r.value| < r.next <= |s|
  {
    match Hex(s, p, 4, 0)
    case None => Fail
    case Some(n) =>
      HexBound(s, p, 4, 0, 1);
      CodePointFrom(s, p + 4, n)
  }

  function CodePointFrom(s: Bytes, p: nat, n: nat): (r: Read<Bytes>)
    requires p <= |s| && n < 0x1_0000
    ensures r.Done? ==> p <= r.next <= |s| && |r.value| < r.next - p + 4
  {
    if 0xDC00 <= n < 0xE000 then Fail
    else if 0xD800 <= n < 0xDC00 then ReadSecondHalf(s, p, n - 0xD800)
    else Done(Encoded(n), p)
  }

  function ReadSecondHalf(s: Bytes, p: nat, high: nat): (r: Read<Bytes>)
    requires high < 0x400
    ensures r.Done? ==> p + |r.value| < r.next <= |s|
  {
    if p + 1 < |s| && s[p] == '\\' && s[p + 1] == 'u' then
      match Hex(s, p + 2, 4, 0)
      case None => Fail
      case Some(n) =>
        if 0xDC00 <= n < 0xE000 then Done(Encoded(0x1_0000 + high * 0x400 + (n - 0xDC00)), p + 6) else Fail
    else Fail
  }

  /** What follows a backslash. */
  function ReadEscape(s: Bytes, p: nat): (r: Read<Bytes>)
    ensures r.Done? ==> p + |r.value| <= r.next <= |s| && p < r.next
  {
    if p >= |s| then Fail
    else if Unescape(s[p]).Some? then Done([Unescape(s[p]).value], p + 1)
    else if s[p] == 'u' then ReadCodePoint(s, p + 1)
    else Fail
  }

  /** Reads a string whose opening quote has been read, through its closing quote. */
  function ReadText(s: Bytes, p: nat): (r: Read<Bytes>)
    requires p <= |s|
    ensures r.Done? ==> p + |r.value| < r.next <= |s| && s[r.next - 1] == '"'
    decreases |s| - p
  {
    if p == |s| || s[p] < ' ' then Fail
    else if s[p] == '"' then Done([], p + 1)
    else if s[p] == '\\' then
      match ReadEscape(s, p + 1)
      case Fail => Fail
      case Done(c, q) =>
        match ReadText(s, q)
        case Fail => Fail
        case Done(t, next) => Done(c + t, next)
    else match ReadText(s, p + 1)
      case Fail => Fail
      case Done(t, next) => Done([s[p]] + t, next)
  }

  function ReadString(s: Bytes, p: nat): (r: Read<Bytes>)
    requires p <= |s|
    ensures r.Done? ==> p + |r.value| < r.next <= |s| && s[r.next - 1] == '"' && Utf8(r.value)
  {
    var r := ReadText(s, p);
    if r.Done? && Utf8(r.value) then r else Fail
  }

  // ---------------------------------------------------------------------------------------------
  // Values (sections 2 to 5)
  // ---------------------------------------------------------------------------------------------

  /** Reads the colon after a key, up to the value. */
  function ReadColon(s: Bytes, p: nat, key: Bytes): (r: Read<Bytes>)
    requires p <= |s|
    ensures r.Done? ==> p < r.next <= |s|
  {
    var b := SkipSpace(s, p);
    if b == |s| || s[b] != ':' then Fail else Done(key, SkipSpace(s, b + 1))
  }

  /** Reads a key and its colon, up to the value. */
  function ReadKey(s: Bytes, p: nat): (r: Read<Bytes>)
    requires p <= |s|
    ensures r.Done? ==> p < r.next <= |s|
  {
    QuotedKey(s, SkipSpace(s, p))
  }

  function QuotedKey(s: Bytes, p: nat): (r: Read<Bytes>)
    requires p <= |s|
    ensures r.Done? ==> p < r.next <= |s|
  {
    if p == |s| || s[p] != '"' then Fail
    else match ReadString(s, p + 1)
      case Fail => Fail
      case Done(key, next) => ReadColon(s, next, key)
  }

  function AsText(r: Read<Bytes>): Read<Json> {
    match r
    case Fail => Fail
    case Done(t, next) => Done(Text(t), next)
  }

  /** `depth` is how many arrays and objects may still be entered, and one more. */
  function ReadValue(s: Bytes, p: nat, depth: nat): (r: Read<Json>)
    requires p <= |s|
    ensures r.Done? ==> p < r.next <= |s|
    ensures r.Done? && r.value.Text? ==>
      p + 1 + |r.value.text| < r.next && s[r.next - 1] == '"' && Utf8(r.value.text)
    decreases |s| - p, 1
  {
    if p == |s| then Fail
    else if s[p] == '"' then AsText(ReadString(s, p + 1))
    else if s[p] == '{' || s[p] == '[' then ReadNested(s, p, depth)
    else if s[p] == 't' || s[p] == 'f' || s[p] == 'n' then ReadLiteral(s, p)
    else ReadNumber(s, p)
  }

  function ReadNested(s: Bytes, p: nat, depth: nat): (r: Read<Json>)
    requires p < |s|
    ensures r.Done? ==> p < r.next <= |s| && !r.value.Text?
    decreases |s| - p, 0
  {
    if depth <= 1 then Fail
    else if s[p] == '{' then
      match ReadBraces(s, p + 1, depth - 1)
      case Fail => Fail
      case Done(ms, next) => Done(Object(ms), next)
    else
      match ReadBrackets(s, p + 1, depth - 1)
      case Fail => Fail
      case Done(items, next) => Done(Array(items), next)
  }

  function ReadBraces(s: Bytes, p: nat, depth: nat): (r: Read<seq<Member>>)
    requires p <= |s|
    ensures r.Done? ==> p < r.next <= |s|
    decreases |s| - p, 4
  {
    var a := SkipSpace(s, p);
    if a < |s| && s[a] == '}' then Done([], a + 1) else ReadMembers(s, p, depth)
  }

  function ReadBrackets(s: Bytes, p: nat, depth: nat): (r: Read<seq<Json>>)
    requires p <= |s|
    ensures r.Done? ==> p < r.next <= |s|
    decreases |s| - p, 4
  {
    var a := SkipSpace(s, p);
    if a < |s| && s[a] == ']' then Done([], a + 1) else ReadItems(s, p, depth)
  }

  function ReadMember(s: Bytes, p: nat, depth: nat): (r: Read<Member>)
    requires p <= |s|
    ensures r.Done? ==> p < r.next <= |s|
    decreases |s| - p, 2
  {
    match ReadKey(s, p)
    case Fail => Fail
    case Done(key, v) =>
      match ReadValue(s, v, depth)
      case Fail => Fail
      case Done(value, next) => Done(Member(key, value), next)
  }

  function ReadMembers(s: Bytes, p: nat, depth: nat): (r: Read<seq<Member>>)
    requires p <= |s|
    ensures r.Done? ==> p < r.next <= |s|
    decreases |s| - p, 3
  {
    match ReadMember(s, p, depth)
    case Fail => Fail
    case Done(m, next) => MoreMembers(s, next, depth, m)
  }

  function MoreMembers(s: Bytes, p: nat, depth: nat, m: Member): (r: Read<seq<Member>>)
    requires p <= |s|
    ensures r.Done? ==> p < r.next <= |s|
    decreases |s| - p, 0
  {
    var a := SkipSpace(s, p);
    if a == |s| then Fail
    else if s[a] == '}' then Done([m], a + 1)
    else if s[a] != ',' then Fail
    else match ReadMembers(s, a + 1, depth)
      case Fail => Fail
      case Done(ms, end) => Done([m] + ms, end)
  }

  function ReadItems(s: Bytes, p: nat, depth: nat): (r: Read<seq<Json>>)
    requires p <= |s|
    ensures r.Done? ==> p < r.next <= |s|
    decreases |s| - p, 3
  {
    match ReadValue(s, SkipSpace(s, p), depth)
    case Fail => Fail
    case Done(v, next) => MoreItems(s, next, depth, v)
  }

  function MoreItems(s: Bytes, p: nat, depth: nat, v: Json): (r: Read<seq<Json>>)
    requires p <= |s|
    ensures r.Done? ==> p < r.next <= |s|
    decreases |s| - p, 0
  {
    var a := SkipSpace(s, p);
    if a == |s| then Fail
    else if s[a] == ']' then Done([v], a + 1)
    else if s[a] != ',' then Fail
    else match ReadItems(s, a + 1, depth)
      case Fail => Fail
      case Done(vs, end) => Done([v] + vs, end)
  }

  const RECURSION_LIMIT: nat := 128
  const TOP: nat := 127

  /** The members of a text that is one object. */
  function ReadObject(s: Bytes): Option<seq<Member>> {
    match ReadValue(s, SkipSpace(s, 0), RECURSION_LIMIT)
    case Done(Object(ms), end) => if SkipSpace(s, end) == |s| then Some(ms) else None
    case _ => None
  }

  /** Indexing a parsed object: of equal keys the last one counts. */
  function Field(ms: seq<Member>, key: Bytes): Option<Json> {
    if ms == [] then None
    else if ms[|ms| - 1].key == key then Some(ms[|ms| - 1].value)
    else Field(ms[..|ms| - 1], key)
  }

  // ---------------------------------------------------------------------------------------------
  // What numbers stand for
  // ---------------------------------------------------------------------------------------------

  /** `as_u64`: only an integer without sign, fraction and exponent is one. */
  function AsU64(digits: Bytes): Option<u64> {
    if digits != [] && (forall i :: 0 <= i < |digits| ==> IsDigit(digits[i])) && Value(digits) < U64_RANGE
    then Some(Value(digits)) else None
  }

  /** A number that is no integer of 64 bits is rounded to a float, and refused if that is infinite.
      Where exactly this happens depends on the rounding: `fits` says so for numbers with an exponent
      or of more than 300 characters. All others are less than 10 to the 300. */
  predicate Representable(fits: Bytes -> bool, digits: Bytes) {
    || AsU64(digits).Some?
    || (|digits| <= 300 && 'e' !in digits && 'E' !in digits)
    || fits(digits)
  }

  predicate InRange(fits: Bytes -> bool, v: Json) {
    match v
    case Number(digits) => Representable(fits, digits)
    case Array(items) => forall i :: 0 <= i < |items| ==> InRange(fits, items[i])
    case Object(ms) => forall i :: 0 <= i < |ms| ==> InRange(fits, ms[i].value)
    case _ => true
  }

  predicate AllInRange(fits: Bytes -> bool, ms: seq<Member>) {
    forall i :: 0 <= i < |ms| ==> InRange(fits, ms[i].value)
  }
}
