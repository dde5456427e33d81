/** Texts that one function prints and another reads back: upload urls, metadata, credentials. */
module Codec {
  import opened Common
  import opened Decimals
  import opened Json
  import opened JsonReading
  import opened TimedMaps

  // ---------------------------------------------------------------------------------------------
  // Upload urls
  // ---------------------------------------------------------------------------------------------

  function UploadUrl(base: Bytes, id: nat): Bytes { base + "/upload/" + Print(id) }

  function LastSegment(url: Bytes): Bytes {
    if url == [] || url[|url| - 1] == '/' then []
    else LastSegment(url[..|url| - 1]) + [url[|url| - 1]]
  }

  lemma {:induction false} LastSegmentAfterSlash(front: Bytes, s: Bytes)
    requires front != [] && front[|front| - 1] == '/'
    requires forall i :: 0 <= i < |s| ==> s[i] != '/'
    ensures LastSegment(front + s) == s
  {
    if s == [] {
      assert front + s == front;
    } else {
      LastSegmentAfterSlash(front, s[..|s| - 1]);
      assert (front + s)[..|front + s| - 1] == front + s[..|s| - 1];
    }
  }

  /** Whatever the base url, the agent is sent to the upload route of that very base, and the last path
      segment names the request the url was printed for, in digits only. */
  lemma UploadUrlRoundTrip(base: Bytes, id: nat)
    ensures var url := UploadUrl(base, id);
      && base + "/upload/" <= url && AllDigits(url[|base| + 8..])
      && LastSegment(url) == url[|base| + 8..]
      && ParseU64(url[|base| + 8..]) == if id < U64_RANGE then Some(id) else None
  {
    var front := base + "/upload/";
    assert front[|front| - 1] == '/';
    assert forall i :: 0 <= i < |Print(id)| ==> IsDigit(Print(id)[i]);
    LastSegmentAfterSlash(front, Print(id));
    assert UploadUrl(base, id)[|base| + 8..] == Print(id);
    ParseOfPrint(id);
  }

  /** So an upload to that url claims its own request, and leaves every other one alone. */
  lemma UploadClaimsItsOwnRequest<V>(base: Bytes, id: u64, requests: seq<Entry<u64, V>>)
    requires DistinctKeys(requests)
    ensures var claimed := ParseU64(LastSegment(UploadUrl(base, id)));
      && claimed.Some?
      && Find(requests, claimed.value) == Find(requests, id)
      && AsMap(Without(requests, claimed.value)) == AsMap(requests) - {id}
  {
    UploadUrlRoundTrip(base, id);
    WithoutRemoves(requests, id);
  }

  // ---------------------------------------------------------------------------------------------
  // Metadata
  // ---------------------------------------------------------------------------------------------

  datatype Metadata = Metadata(fileId: u64, exp: u64, crt: u64, fileSize: u64, username: Bytes, fileName: Bytes)

  /** `space` is the blank between the colon and the value, which the first line does not have. */
  datatype Line = Line(space: Bytes, member: Member)

  /** A line break and the indentation of the source text. */
  function NewLine(indent: nat): (w: Bytes)
    ensures |w| == indent + 1 && forall i :: 0 <= i < |w| ==> IsSpace(w[i])
    ensures forall i :: 0 <= i < |w| ==> w[i] != '"'
  {
    "\n" + seq(indent, i => ' ')
  }

  /** Texts go between quotes as they are: no escaping of any kind is done. */
  function RenderValue(v: Json): Bytes {
    match v
    case Text(t) => "\"" + (t + "\"")
    case Number(digits) => digits
    case _ => []
  }

  function RenderLine(l: Line): Bytes {
    NewLine(40) + ("\"" + (l.member.key + ("\"" + (":" + (l.space + RenderValue(l.member.value))))))
  }

  function RenderLines(ls: seq<Line>): Bytes {
    if ls == [] then [] else RenderLine(ls[0]) + ("," + RenderLines(ls[1..]))
  }

  function Members(ls: seq<Line>): seq<Member> {
    if ls == [] then [] else [ls[0].member] + Members(ls[1..])
  }

  function Closing(): Bytes { NewLine(36) + "}" }

  function LeadingLines(m: Metadata): seq<Line> {
    [ Line("", Member("file_id", Number(Print(m.fileId)))),
      Line(" ", Member("exp", Number(Print(m.exp)))),
      Line(" ", Member("crt", Number(Print(m.crt)))),
      Line(" ", Member("file_size", Number(Print(m.fileSize)))) ]
  }

  function UserLine(username: Bytes): Line { Line(" ", Member("username", Text(username))) }

  function NameLine(m: Metadata): Line { Line(" ", Member("file_name", Text(m.fileName))) }

  /** The body that a metadata reply is formatted into. */
  function FormatMetadata(m: Metadata): Bytes {
    "{" + (RenderLines(LeadingLines(m))
           + (RenderLine(UserLine(m.username)) + ("," + (RenderLine(NameLine(m)) + Closing()))))
  }

  /** `as_u64` on what a field holds. */
  function SizeIn(v: Option<Json>): Option<u64> {
    match v
    case Some(Number(digits)) => AsU64(digits)
    case _ => None
  }

  /** What the download handler reads out of the body; None where one of its unwraps fails. */
  function ReadMetadata(fits: Bytes -> bool, body: Bytes): Option<(Bytes, u64)> {
    match ReadObject(body)
    case None => None
    case Some(ms) =>
      if !AllInRange(fits, ms) then None
      else match (Field(ms, "file_name"), SizeIn(Field(ms, "file_size")))
        case (Some(Text(name)), Some(size)) => Some((name, size))
        case _ => None
  }

  // ---------------------------------------------------------------------------------------------
  // Reading back what was rendered
  // ---------------------------------------------------------------------------------------------

  ghost predicate PlainValue(v: Json) { (v.Text? && Readable(v.text)) || (v.Number? && IsInteger(v.digits)) }

  ghost predicate PlainKey(l: Line) {
    && Readable(l.member.key) && (l.space == "" || l.space == " ")
    && (l.member.value.Text? || PlainValue(l.member.value))
  }

  ghost predicate PlainLine(l: Line) { PlainKey(l) && PlainValue(l.member.value) }

  lemma TextParts(s: Bytes, p: nat, t: Bytes)
    requires At(s, p, RenderValue(Text(t)))
    ensures s[p] == '"' && At(s, p + 1, t) && p + 1 + |t| < |s| && s[p + 1 + |t|] == '"'
  {
    AtHead(s, p, '"', t + "\"");
    AtParts(s, p + 1, t, "\"");
    assert s[p + 1 + |t| + 0] == "\""[0];
  }

  lemma ReadRenderedValue(s: Bytes, p: nat, depth: nat, v: Json)
    requires PlainValue(v) && At(s, p, RenderValue(v))
    requires p + |RenderValue(v)| < |s| && EndsValue(s[p + |RenderValue(v)|])
    ensures ReadValue(s, p, depth) == Done(v, p + |RenderValue(v)|)
  {
    hide At, Readable, IsInteger, EndsValue, ReadString, ReadNested, ReadLiteral, ReadNumber;
    match v
    case Text(t) =>
      TextParts(s, p, t);
      ReadReadable(s, p + 1, t);
    case Number(digits) =>
      hide ReadValue;
      ReadInteger(s, p, digits, depth);
  }

  lemma ValueStarts(v: Json)
    requires v.Text? || PlainValue(v)
    ensures RenderValue(v) != [] && !IsSpace(RenderValue(v)[0])
  {}

  lemma ReadRenderedKey(s: Bytes, p: nat, l: Line)
    requires PlainKey(l) && At(s, p, RenderLine(l))
    ensures var v := p + |RenderLine(l)| - |RenderValue(l.member.value)|;
      v >= 0 && ReadKey(s, p) == Done(l.member.key, v) && At(s, v, RenderValue(l.member.value))
  {
    hide ReadKey, At, Readable, NewLine, IsInteger;
    ValueStarts(l.member.value);
    hide RenderValue;
    var key, value := l.member.key, RenderValue(l.member.value);
    AtParts(s, p, NewLine(40), "\"" + (key + ("\"" + (":" + (l.space + value)))));
    ReadQuotedKey(s, p, NewLine(40), key, l.space, value);
  }

  lemma ReadQuotedKey(s: Bytes, p: nat, w: Bytes, key: Bytes, space: Bytes, value: Bytes)
    requires At(s, p, w) && At(s, p + |w|, "\"" + (key + ("\"" + (":" + (space + value)))))
    requires forall i :: 0 <= i < |w| ==> IsSpace(w[i])
    requires Readable(key) && (space == "" || space == " ") && value != [] && !IsSpace(value[0])
    ensures ReadKey(s, p) == Done(key, p + |w| + |key| + 3 + |space|)
    ensures At(s, p + |w| + |key| + 3 + |space|, value)
  {
    hide At, Readable, ReadString;
    var a := p + |w|;
    var b := a + 1 + |key|;
    AtHead(s, a, '"', key + ("\"" + (":" + (space + value))));
    AtParts(s, a + 1, key, "\"" + (":" + (space + value)));
    AtHead(s, b, '"', ":" + (space + value));
    AtHead(s, b + 1, ':', space + value);
    AtParts(s, b + 2, space, value);
    SkipSpaceOver(s, p, w);
    ReadReadable(s, a + 1, key);
    assert SkipSpace(s, b + 1) == b + 1;
    AtFirst(s, b + 2 + |space|, value);
    SkipSpaceOver(s, b + 2, space);
  }

  lemma ReadLine(s: Bytes, p: nat, depth: nat, l: Line)
    requires PlainLine(l) && At(s, p, RenderLine(l))
    requires p + |RenderLine(l)| < |s| && EndsValue(s[p + |RenderLine(l)|])
    ensures ReadMember(s, p, depth) == Done(l.member, p + |RenderLine(l)|)
  {
    hide RenderLine, RenderValue, ReadKey, ReadValue, At, Readable, IsInteger;
    ReadRenderedKey(s, p, l);
    ReadRenderedValue(s, p + |RenderLine(l)| - |RenderValue(l.member.value)|, depth, l.member.value);
  }

  /** Lines that are plain are read one by one, and the rest is read after them. */
  lemma {:induction false} ReadLines(s: Bytes, p: nat, depth: nat, ls: seq<Line>)
    requires forall i :: 0 <= i < |ls| ==> PlainLine(ls[i])
    requires At(s, p, RenderLines(ls))
    ensures ReadMembers(s, p, depth) == Prepend(Members(ls), ReadMembers(s, p + |RenderLines(ls)|, depth))
    decreases |ls|
  {
    hide RenderLine, ReadMembers, PlainLine, Prepend;
    if ls == [] {
      PrependNone(ReadMembers(s, p, depth));
    } else {
      var more := RenderLines(ls[1..]);
      FirstLine(s, p, depth, ls[0], more);
      hide At;
      ReadLines(s, p + |RenderLine(ls[0])| + 1, depth, ls[1..]);
      PrependTwice(ls[0].member, Members(ls[1..]), ReadMembers(s, p + |RenderLines(ls)|, depth));
    }
  }

  lemma FirstLine(s: Bytes, p: nat, depth: nat, l: Line, more: Bytes)
    requires PlainLine(l) && At(s, p, RenderLine(l) + ("," + more))
    ensures var q := p + |RenderLine(l)| + 1;
      && q + |more| <= |s| && At(s, q, more)
      && ReadMembers(s, p, depth) == Prepend([l.member], ReadMembers(s, q, depth))
  {
    hide RenderLine, ReadMember, ReadMembers, PlainLine;
    var q := p + |RenderLine(l)|;
    AtParts(s, p, RenderLine(l), "," + more);
    AtHead(s, q, ',', more);
    ReadLine(s, p, depth, l);
    ReadMembersStep(s, p, depth, l.member, q);
  }

  /** The parts of a reply body and where they stand. */
  ghost function UserAt(m: Metadata): nat { 1 + |RenderLines(LeadingLines(m))| }
  ghost function NameAt(m: Metadata): nat { UserAt(m) + |RenderLine(UserLine(m.username))| + 1 }
  ghost function EndAt(m: Metadata): nat { NameAt(m) + |RenderLine(NameLine(m))| }

  lemma BodyParts(m: Metadata)
    ensures var s := FormatMetadata(m);
      && s[0] == '{' && At(s, 1, RenderLines(LeadingLines(m))) && At(s, UserAt(m), RenderLine(UserLine(m.username)))
      && s[NameAt(m) - 1] == ',' && At(s, NameAt(m), RenderLine(NameLine(m)))
      && At(s, EndAt(m), Closing()) && |s| == EndAt(m) + |Closing()|
  {
    hide At, RenderLine, RenderLines, Closing, LeadingLines, UserLine, NameLine;
    var s := FormatMetadata(m);
    PartsAt(s, "{", RenderLines(LeadingLines(m)), RenderLine(UserLine(m.username)), ",",
            RenderLine(NameLine(m)), Closing());
    AtFirst(s, 0, "{");
    AtFirst(s, NameAt(m) - 1, ",");
  }

  lemma PartsAt(s: Bytes, a: Bytes, b: Bytes, c: Bytes, d: Bytes, e: Bytes, f: Bytes)
    requires s == a + (b + (c + (d + (e + f))))
    ensures var n := |a| + |b| + |c|;
      && At(s, 0, a) && At(s, |a|, b) && At(s, |a| + |b|, c) && At(s, n, d)
      && At(s, n + |d|, e) && At(s, n + |d| + |e|, f) && |s| == n + |d| + |e| + |f|
  {
    var ef := e + f;
    var df := d + ef;
    var cf := c + df;
    var bf := b + cf;
    assert At(s, 0, a + bf);
    hide At;
    AtParts(s, 0, a, bf);
    AtParts(s, |a|, b, cf);
    AtParts(s, |a| + |b|, c, df);
    AtParts(s, |a| + |b| + |c|, d, ef);
    AtParts(s, |a| + |b| + |c| + |d|, e, f);
  }

  lemma ClosingParts(m: Metadata)
    ensures var s := FormatMetadata(m);
      && EndAt(m) < |s| && s[EndAt(m)] == '\n' && SkipSpace(s, EndAt(m)) == |s| - 1 && s[|s| - 1] == '}'
      && forall i :: EndAt(m) <= i < |s| ==> s[i] != '"'
  {
    hide FormatMetadata, EndAt, SkipSpace, RenderLine, RenderLines, LeadingLines, UserLine, NameLine, At, NameAt,
      UserAt;
    BodyParts(m);
    AtParts(FormatMetadata(m), EndAt(m), NewLine(36), "}");
    BlanksThenBrace(FormatMetadata(m), EndAt(m), NewLine(36));
  }

  lemma BlanksThenBrace(s: Bytes, p: nat, w: Bytes)
    requires |w| == 37 && |s| == p + 38 && At(s, p, w) && At(s, p + 37, "}") && w[0] == '\n'
    requires forall i :: 0 <= i < 37 ==> IsSpace(w[i])
    ensures s[p] == '\n' && SkipSpace(s, p) == |s| - 1 && s[|s| - 1] == '}'
    ensures forall i :: p <= i < |s| ==> s[i] != '"'
  {
    assert s[p + 0] == w[0] && s[p + 37 + 0] == "}"[0];
    SkipSpaceOver(s, p, w);
    forall i | p <= i < p + 37 ensures IsSpace(s[i]) {
      assert s[p + (i - p)] == w[i - p];
    }
  }

  /** The line of the user name, in an object of its own. */
  function UserObject(username: Bytes): Bytes { "{" + (RenderLine(UserLine(username)) + "}") }

  function UserMembers(username: Bytes): Option<seq<Member>> { ReadObject(UserObject(username)) }

  lemma UserObjectParts(username: Bytes)
    ensures var g, l := UserObject(username), RenderLine(UserLine(username));
      && |g| == |l| + 2 && g[0] == '{' && At(g, 1, l) && g[|g| - 1] == '}' && g[|g| - 2] == '"'
  {
    var g, l := UserObject(username), RenderLine(UserLine(username));
    UserLineEnds(username);
    hide RenderLine, UserLine;
    ThreePartsAt(g, "{", l, "}");
    assert g[1 + (|l| - 1)] == l[|l| - 1];
  }

  lemma ThreePartsAt(s: Bytes, a: Bytes, b: Bytes, c: Bytes)
    requires s == a + (b + c) && |a| == |c| == 1
    ensures At(s, 1, b) && |s| == |b| + 2 && s[0] == a[0] && s[|b| + 1] == c[0]
  {}

  lemma UserLineEnds(username: Bytes)
    ensures var l := RenderLine(UserLine(username)); |l| > 0 && l[|l| - 1] == '"'
  {
    hide NewLine;
  }

  lemma UserFragment(m: Metadata)
    ensures var s, g := FormatMetadata(m), UserObject(m.username);
      Fragment(s, UserAt(m) - 1, g) && NameAt(m) == UserAt(m) - 1 + |g|
  {
    hide FormatMetadata, RenderLine, UserObject, UserLine, NameLine, LeadingLines, RenderLines, Closing, NewLine;
    BodyParts(m);
    UserObjectParts(m.username);
    StartsNewLine(FormatMetadata(m), NameAt(m), NameLine(m));
    SameLine(FormatMetadata(m), UserAt(m) - 1, UserObject(m.username), RenderLine(UserLine(m.username)));
  }

  lemma StartsNewLine(s: Bytes, p: nat, l: Line)
    requires At(s, p, RenderLine(l))
    ensures p < |s| && s[p] == '\n'
  {
    var key, value := l.member.key, RenderValue(l.member.value);
    AtParts(s, p, NewLine(40), "\"" + (key + ("\"" + (":" + (l.space + value)))));
    AtFirst(s, p, NewLine(40));
  }

  lemma SameLine(s: Bytes, d: nat, g: Bytes, line: Bytes)
    requires At(s, d + 1, line) && At(g, 1, line)
    ensures forall i :: 0 < i <= |line| ==> s[d + i] == g[i]
  {
    forall i | 0 < i <= |line| ensures s[d + i] == g[i] {
      assert s[d + 1 + (i - 1)] == line[i - 1] && g[1 + (i - 1)] == line[i - 1];
    }
  }

  lemma UserObjectIsRead(username: Bytes)
    ensures UserMembers(username) == Finish(UserObject(username), ReadMembers(UserObject(username), 1, TOP))
  {
    var g, l := UserObject(username), UserLine(username);
    KeysAreReadable();
    UserObjectParts(username);
    assert PlainKey(l);
    hide UserObject, RenderLine, ReadMembers, ReadObject;
    ReadRenderedKey(g, 1, l);
    ReadObjectStep(g);
  }

  lemma KeysAreReadable()
    ensures Readable("file_id") && Readable("exp") && Readable("crt") && Readable("file_size")
    ensures Readable("username") && Readable("file_name") && Readable("public_id") && Readable("passcode")
  {
    hide Readable;
    AsciiIsReadable("file_id");
    AsciiIsReadable("exp");
    AsciiIsReadable("crt");
    AsciiIsReadable("file_size");
    AsciiIsReadable("username");
    AsciiIsReadable("file_name");
    AsciiIsReadable("public_id");
    AsciiIsReadable("passcode");
  }

  lemma LeadingLinesArePlain(m: Metadata)
    ensures LeadingLines(m) != [] && forall i :: 0 <= i < |LeadingLines(m)| ==> PlainLine(LeadingLines(m)[i])
  {
    KeysAreReadable();
    hide Readable, AsU64, IsInteger;
    PrintedU64(m.fileId);
    PrintedU64(m.exp);
    PrintedU64(m.crt);
    PrintedU64(m.fileSize);
  }

  lemma OpensWithMember(s: Bytes, p: nat, ls: seq<Line>)
    requires ls != [] && PlainLine(ls[0]) && At(s, p, RenderLines(ls))
    ensures SkipSpace(s, p) < |s| && s[SkipSpace(s, p)] == '"'
  {
    hide RenderLine;
    AtParts(s, p, RenderLine(ls[0]), "," + RenderLines(ls[1..]));
    ReadRenderedKey(s, p, ls[0]);
  }

  /** An array that is open when the user name ends cannot go on with the line of the file name: a
      colon follows its key. */
  lemma NoArrayGoesOn(m: Metadata)
    ensures NoItems(FormatMetadata(m), NameAt(m))
  {
    hide FormatMetadata, NameAt, EndAt, ReadText, ReadKey;
    var s, p := FormatMetadata(m), NameAt(m);
    NameKey(m);
    forall depth ensures ReadItems(s, p, depth) == Fail {
      KeyIsNoItem(s, p, depth);
    }
  }

  lemma KeyIsNoItem(s: Bytes, p: nat, depth: nat)
    requires p <= |s| && ReadKey(s, p).Done?
    ensures ReadItems(s, p, depth) == Fail
  {
    hide ReadString, ReadItems;
    var a := SkipSpace(s, p);
    var r := ReadString(s, a + 1);
    assert ReadValue(s, a, depth) == Done(Text(r.value), r.next);
    assert MoreItems(s, r.next, depth, Text(r.value)) == Fail;
    ItemsFrom(s, p, depth);
  }

  lemma ItemsFrom(s: Bytes, p: nat, depth: nat)
    requires p <= |s|
    ensures var r := ReadValue(s, SkipSpace(s, p), depth);
      ReadItems(s, p, depth) == if r.Done? then MoreItems(s, r.next, depth, r.value) else Fail
  {
    hide ReadValue, MoreItems;
  }

  lemma NameKey(m: Metadata)
    ensures NameAt(m) <= |FormatMetadata(m)| && ReadKey(FormatMetadata(m), NameAt(m)).Done?
  {
    hide RenderLine, LeadingLines, FormatMetadata, RenderLines, ReadKey, Readable, NameAt, EndAt;
    BodyParts(m);
    KeysAreReadable();
    ReadRenderedKey(FormatMetadata(m), NameAt(m), NameLine(m));
  }

  /** A reply body is read as its leading members, whatever the line of the user name is read as,
      and whatever the last line is read as; or not at all. */
  lemma ReadBody(m: Metadata, rest: Option<Read<seq<Member>>>)
    requires match rest
      case None => '{' !in m.username
      case Some(r) => OnlyMembers(FormatMetadata(m), NameAt(m), r)
    ensures var s := FormatMetadata(m);
      NameAt(m) <= |s| && ReadObject(s) ==
        match UserMembers(m.username)
        case None => None
        case Some(ms) => Finish(s, Prepend(Members(LeadingLines(m)) + ms, ReadMembers(s, NameAt(m), TOP)))
  {
    hide RenderLine, LeadingLines, Members, Closing, NameLine, UserLine, ReadObject, RenderLines, FormatMetadata,
      PlainLine, ReadMembers, UserObject, Fragment, NoItems, OnlyMembers, GoesOn;
    var s, ls, g, d := FormatMetadata(m), LeadingLines(m), UserObject(m.username), UserAt(m) - 1;
    BodyParts(m);
    LeadingLinesArePlain(m);
    ReadLines(s, 1, TOP, ls);
    OpensWithMember(s, 1, ls);
    ReadObjectStep(s);
    UserFragment(m);
    UserObjectParts(m.username);
    assert |g| >= 3 by { UserLineEnds(m.username); }
    BodyGoesOn(m, rest);
    SameMembers(s, d, g, 1, TOP, rest);
    FinishFragment(s, d, g, Members(ls), ReadMembers(g, 1, TOP), ReadMembers(s, d + |g|, TOP));
    UserObjectIsRead(m.username);
  }

  /** The same without knowing the last line, if the line of the user name can be read. */
  lemma ReadBodyAfterUser(m: Metadata)
    requires UserMembers(m.username).Some?
    ensures var s := FormatMetadata(m);
      NameAt(m) <= |s| && ReadObject(s) ==
        Finish(s, Prepend(Members(LeadingLines(m)) + UserMembers(m.username).value, ReadMembers(s, NameAt(m), TOP)))
  {
    hide RenderLine, LeadingLines, Members, Closing, NameLine, UserLine, ReadObject, RenderLines, FormatMetadata,
      PlainLine, ReadMembers, UserObject, Fragment;
    var s, ls, g, d := FormatMetadata(m), LeadingLines(m), UserObject(m.username), UserAt(m) - 1;
    BodyParts(m);
    LeadingLinesArePlain(m);
    ReadLines(s, 1, TOP, ls);
    OpensWithMember(s, 1, ls);
    ReadObjectStep(s);
    UserFragment(m);
    UserObjectParts(m.username);
    assert |g| >= 3 by { UserLineEnds(m.username); }
    UserObjectIsRead(m.username);
    AlikeMembers(s, d, g, 1, TOP);
    FinishFragment(s, d, g, Members(ls), ReadMembers(g, 1, TOP), ReadMembers(s, d + |g|, TOP));
  }

  lemma BodyGoesOn(m: Metadata, rest: Option<Read<seq<Member>>>)
    requires match rest
      case None => '{' !in m.username
      case Some(r) => OnlyMembers(FormatMetadata(m), NameAt(m), r)
    ensures GoesOn(FormatMetadata(m), UserAt(m) - 1, UserObject(m.username), rest)
  {
    UserFragment(m);
    NoArrayGoesOn(m);
    hide FormatMetadata, NameAt, UserAt, NoItems, OnlyMembers, Fragment, UserObject;
    if rest == None {
      UserHasNoBrace(m.username);
    }
  }

  lemma UserHasNoBrace(username: Bytes)
    requires '{' !in username
    ensures NoBrace(UserObject(username))
  {
    var l := RenderLine(UserLine(username));
    assert '{' !in NewLine(40);
    assert '{' !in l by { hide NewLine; }
    hide RenderLine, UserLine;
    AllBut(l, '{');
  }

  lemma AllBut(l: Bytes, c: char)
    requires c !in l && c != '}'
    ensures forall i :: 0 < i < |l| + 2 ==> ("{" + (l + "}"))[i] != c
  {
    forall i | 0 < i < |l| + 2 ensures ("{" + (l + "}"))[i] != c {
      assert i <= |l| ==> ("{" + (l + "}"))[i] == l[i - 1];
    }
  }

  lemma {:induction false} MembersAt(ls: seq<Line>)
    ensures |Members(ls)| == |ls| && forall i :: 0 <= i < |ls| ==> Members(ls)[i] == ls[i].member
  {
    if ls != [] {
      MembersAt(ls[1..]);
    }
  }

  lemma LeadingMembers(m: Metadata, fits: Bytes -> bool)
    ensures Field(Members(LeadingLines(m)), "file_size") == Some(Number(Print(m.fileSize)))
    ensures AllInRange(fits, Members(LeadingLines(m)))
  {
    hide AsU64, IsInteger, Print;
    MembersAt(LeadingLines(m));
    PrintedU64(m.fileId);
    PrintedU64(m.exp);
    PrintedU64(m.crt);
    PrintedU64(m.fileSize);
  }

  // ---------------------------------------------------------------------------------------------
  // Which user names are allowed
  // ---------------------------------------------------------------------------------------------

  /** What the user name may be: between its quotes it is read as some members, and none of them
      gives a file size other than this or holds a number that is too large. */
  predicate UserAllows(fits: Bytes -> bool, username: Bytes, fileSize: u64) {
    match UserMembers(username)
    case None => false
    case Some(ms) =>
      AllInRange(fits, ms) && (Field(ms, "file_size") == None || SizeIn(Field(ms, "file_size")) == Some(fileSize))
  }

  /** A user name that is one closed text between quotes is always allowed, whatever escapes are in it ... */
  lemma ClosedUserNameIsAllowed(fits: Bytes -> bool, username: Bytes, t: Bytes, fileSize: u64)
    requires ReadString(username + "\"", 0) == Done(t, |username| + 1)
    ensures UserAllows(fits, username, fileSize) && UserMembers(username) == Some([Member("username", Text(t))])
  {
    hide ReadMember, ReadObject, ReadMembers, ReadString, UserObject, RenderLine, Finish;
    var g, m := UserObject(username), Member("username", Text(t));
    UserObjectParts(username);
    ReadUserMember(g, username, t);
    UserObjectIsRead(username);
    OneMember(g, m);
    OtherField(m, "file_size");
  }

  lemma ReadUserMember(g: Bytes, username: Bytes, t: Bytes)
    requires At(g, 1, RenderLine(UserLine(username))) && |g| == |RenderLine(UserLine(username))| + 2
    requires ReadString(username + "\"", 0) == Done(t, |username| + 1)
    ensures ReadMember(g, 1, TOP) == Done(Member("username", Text(t)), |g| - 1)
  {
    hide ReadText, RenderLine, ReadKey, Readable, Utf8;
    var v := |g| - 1 - |RenderValue(Text(username))|;
    KeysAreReadable();
    ReadRenderedKey(g, 1, UserLine(username));
    TextWithQuote(g, v, username);
    TextParts(g, v, username);
    TextElsewhere(g, v + 1, username + "\"", 0);
    hide At, RenderValue;
  }

  lemma TextWithQuote(s: Bytes, p: nat, t: Bytes)
    requires At(s, p, RenderValue(Text(t)))
    ensures At(s, p + 1, t + "\"")
  {
    AtHead(s, p, '"', t + "\"");
  }

  lemma OtherField(m: Member, key: Bytes)
    requires |m.key| != |key|
    ensures Field([m], key) == None
  {}

  lemma OneMember(g: Bytes, m: Member)
    requires |g| > 1 && ReadMember(g, 1, TOP) == Done(m, |g| - 1) && g[|g| - 1] == '}'
    ensures Finish(g, ReadMembers(g, 1, TOP)) == Some([m])
  {
    hide ReadMember;
    assert SkipSpace(g, |g| - 1) == |g| - 1 && SkipSpace(g, |g|) == |g|;
  }

  /** ... and so is a readable one. */
  lemma ReadableUserNameIsAllowed(fits: Bytes -> bool, username: Bytes, fileSize: u64)
    requires Readable(username)
    ensures UserAllows(fits, username, fileSize)
  {
    var s := username + "\"";
    assert s[|username|] == '"';
    ReadReadable(s, 0, username);
    hide ReadString, UserAllows;
    ClosedUserNameIsAllowed(fits, username, username, fileSize);
  }

  // ---------------------------------------------------------------------------------------------
  // Exactly which names survive
  // ---------------------------------------------------------------------------------------------

  ghost predicate Survives(fits: Bytes -> bool, m: Metadata) {
    ReadMetadata(fits, FormatMetadata(m)) == Some((m.fileName, m.fileSize))
  }

  /** With a readable file name, the last line adds just that. */
  lemma ReadNameLine(m: Metadata)
    requires Readable(m.fileName)
    ensures OnlyMembers(FormatMetadata(m), NameAt(m), Done([NameLine(m).member], |FormatMetadata(m)|))
  {
    hide RenderLine, ReadMember, LeadingLines, Closing, FormatMetadata, RenderLines, UserLine, NameAt, EndAt, Readable,
      ReadMembers, SkipSpace;
    var s, l := FormatMetadata(m), NameLine(m);
    KeysAreReadable();
    assert PlainLine(l);
    assert EndAt(m) == NameAt(m) + |RenderLine(l)| by { NameEnds(m); }
    BodyParts(m);
    ClosingParts(m);
    forall depth ensures ReadMembers(s, NameAt(m), depth) == Done([l.member], |s|) {
      ReadLine(s, NameAt(m), depth, l);
      ReadMembersStep(s, NameAt(m), depth, l.member, EndAt(m));
    }
  }

  lemma NameEnds(m: Metadata)
    ensures EndAt(m) == NameAt(m) + |RenderLine(NameLine(m))|
  {}

  /** What follows once it is known what the last line was read as. */
  lemma SurvivesAfter(fits: Bytes -> bool, m: Metadata, ms: seq<Member>)
    requires ReadObject(FormatMetadata(m)) == Some(Members(LeadingLines(m)) + ms + [NameLine(m).member])
    ensures Survives(fits, m) <==>
      AllInRange(fits, ms) && (Field(ms, "file_size") == None || SizeIn(Field(ms, "file_size")) == Some(m.fileSize))
  {
    hide LeadingLines, FormatMetadata, ReadObject, Members, AllInRange, AsU64, Print;
    var before, last := Members(LeadingLines(m)), [NameLine(m).member];
    LeadingMembers(m, fits);
    PrintedU64(m.fileSize);
    assert AllInRange(fits, last) by { TextInRange(fits, "file_name", m.fileName); }
    BothInRange(fits, before, ms);
    BothInRange(fits, before + ms, last);
    assert "file_name"[5] != "file_size"[5];
    FieldOfBoth(before, ms, "file_size");
    FieldOfBoth(before + ms, last, "file_size");
    FieldOfBoth(before + ms, last, "file_name");
  }

  lemma TextInRange(fits: Bytes -> bool, key: Bytes, t: Bytes)
    ensures AllInRange(fits, [Member(key, Text(t))])
  {}

  /** If the file name is readable, everything hangs on the user name. */
  lemma ReadableNameSurvivesIff(fits: Bytes -> bool, m: Metadata)
    requires Readable(m.fileName)
    ensures Survives(fits, m) <==> UserAllows(fits, m.username, m.fileSize)
  {
    hide LeadingLines, FormatMetadata, ReadObject, ReadMembers, NameAt, Members, UserMembers, SkipSpace, Readable,
      NameLine, Field, AllInRange, SizeIn;
    ReadNameLine(m);
    ReadBody(m, Some(Done([NameLine(m).member], |FormatMetadata(m)|)));
    if UserMembers(m.username).Some? {
      NoSpaceAtEnd(FormatMetadata(m));
      hide Survives;
      SurvivesAfter(fits, m, UserMembers(m.username).value);
    }
  }

  lemma NoSpaceAtEnd(s: Bytes)
    ensures SkipSpace(s, |s|) == |s|
  {}

  /** A metadata reply with readable names reaches the download handler unchanged. */
  lemma MetadataRoundTrip(fits: Bytes -> bool, m: Metadata)
    requires Readable(m.username) && Readable(m.fileName)
    ensures ReadMetadata(fits, FormatMetadata(m)) == Some((m.fileName, m.fileSize))
  {
    hide ReadMetadata, FormatMetadata, UserAllows;
    ReadableUserNameIsAllowed(fits, m.username, m.fileSize);
    ReadableNameSurvivesIff(fits, m);
  }

  /** Any client that reads a metadata reply with readable names finds the six fields of the file in it,
      and nothing else. */
  lemma MetadataFields(m: Metadata)
    requires Readable(m.username) && Readable(m.fileName)
    ensures var r := ReadObject(FormatMetadata(m));
      && r.Some? && |r.value| == 6
      && SizeIn(Field(r.value, "file_id")) == Some(m.fileId) && SizeIn(Field(r.value, "exp")) == Some(m.exp)
      && SizeIn(Field(r.value, "crt")) == Some(m.crt) && SizeIn(Field(r.value, "file_size")) == Some(m.fileSize)
      && Field(r.value, "username") == Some(Text(m.username))
      && Field(r.value, "file_name") == Some(Text(m.fileName))
  {
    hide LeadingLines, FormatMetadata, ReadObject, ReadMembers, NameAt, Members, UserMembers, SkipSpace, Readable,
      NameLine, Field, SizeIn;
    ReadNameLine(m);
    ReadBody(m, Some(Done([NameLine(m).member], |FormatMetadata(m)|)));
    UserMembersRead(m.username);
    NoSpaceAtEnd(FormatMetadata(m));
    SixFields(m, Members(LeadingLines(m)) + [Member("username", Text(m.username))] + [NameLine(m).member]);
  }

  lemma UserMembersRead(username: Bytes)
    requires Readable(username)
    ensures UserMembers(username) == Some([Member("username", Text(username))])
  {
    var s := username + "\"";
    assert s[|username|] == '"';
    ReadReadable(s, 0, username);
    hide ReadString, Readable, UserAllows, UserMembers;
    ClosedUserNameIsAllowed(_ => true, username, username, 0);
  }

  lemma SixFields(m: Metadata, ms: seq<Member>)
    requires ms == Members(LeadingLines(m)) + [Member("username", Text(m.username))] + [NameLine(m).member]
    ensures |ms| == 6
    ensures SizeIn(Field(ms, "file_id")) == Some(m.fileId) && SizeIn(Field(ms, "exp")) == Some(m.exp)
    ensures SizeIn(Field(ms, "crt")) == Some(m.crt) && SizeIn(Field(ms, "file_size")) == Some(m.fileSize)
    ensures Field(ms, "username") == Some(Text(m.username)) && Field(ms, "file_name") == Some(Text(m.fileName))
  {
    KeysApart(m, ms);
    PrintedU64(m.fileId);
    PrintedU64(m.exp);
    PrintedU64(m.crt);
    PrintedU64(m.fileSize);
    LeadingAre(m);
    hide LeadingLines, Members, AsU64, Print, Field;
    EveryField(ms);
    assert Field(ms, ms[0].key) == Some(ms[0].value) && Field(ms, ms[1].key) == Some(ms[1].value);
    assert Field(ms, ms[2].key) == Some(ms[2].value) && Field(ms, ms[3].key) == Some(ms[3].value);
    assert Field(ms, ms[4].key) == Some(ms[4].value) && Field(ms, ms[5].key) == Some(ms[5].value);
  }

  lemma LeadingAre(m: Metadata)
    ensures Members(LeadingLines(m)) ==
      [ Member("file_id", Number(Print(m.fileId))), Member("exp", Number(Print(m.exp))),
        Member("crt", Number(Print(m.crt))), Member("file_size", Number(Print(m.fileSize))) ]
  {
    hide Print;
    MembersAt(LeadingLines(m));
  }

  lemma KeysApart(m: Metadata, ms: seq<Member>)
    requires ms == Members(LeadingLines(m)) + [Member("username", Text(m.username))] + [NameLine(m).member]
    ensures |ms| == 6 && forall i, j :: 0 <= i < j < 6 ==> ms[i].key != ms[j].key
  {
    hide Print;
    MembersAt(LeadingLines(m));
    SixKeys();
    assert |ms[0].key| == 7 && |ms[1].key| == |ms[2].key| == 3 && |ms[3].key| == |ms[5].key| == 9 && |ms[4].key| == 8;
  }

  lemma EveryField(ms: seq<Member>)
    requires forall i, j :: 0 <= i < j < |ms| ==> ms[i].key != ms[j].key
    ensures forall i :: 0 <= i < |ms| ==> Field(ms, ms[i].key) == Some(ms[i].value)
  {
    hide Field;
    forall i | 0 <= i < |ms| ensures Field(ms, ms[i].key) == Some(ms[i].value) {
      FieldAt(ms, i);
    }
  }

  /** Of different keys each is found where it stands. */
  lemma {:induction false} FieldAt(ms: seq<Member>, i: nat)
    requires i < |ms| && forall j :: i < j < |ms| ==> ms[j].key != ms[i].key
    ensures Field(ms, ms[i].key) == Some(ms[i].value)
  {
    if i < |ms| - 1 {
      FieldAt(ms[..|ms| - 1], i);
    }
  }

  lemma SixKeys()
    ensures "file_name" != "file_size" && "exp" != "crt"
  {
    assert "file_name"[5] != "file_size"[5] && "exp"[0] != "crt"[0];
  }

  lemma NameParts(m: Metadata)
    ensures var s := FormatMetadata(m);
      var v := EndAt(m) - |m.fileName| - 2;
      && NameAt(m) <= |s| && ReadKey(s, NameAt(m)) == Done("file_name", v)
      && v >= 0 && v + 1 + |m.fileName| < |s|
      && s[v] == '"' && At(s, v + 1, m.fileName) && s[v + 1 + |m.fileName|] == '"'
      && forall j :: v + 1 + |m.fileName| < j < |s| ==> s[j] != '"'
  {
    hide RenderLine, LeadingLines, Closing, FormatMetadata, RenderLines, ReadKey, NewLine, Readable, SkipSpace;
    BodyParts(m);
    ClosingParts(m);
    KeysAreReadable();
    ReadRenderedKey(FormatMetadata(m), NameAt(m), NameLine(m));
    TextParts(FormatMetadata(m), EndAt(m) - |m.fileName| - 2, m.fileName);
  }

  /** Nothing but a readable file name survives beside a user name that is read as members, or that has
      no opening brace in it. */
  lemma OnlyReadableNamesSurvive(fits: Bytes -> bool, m: Metadata)
    requires UserMembers(m.username).Some? || '{' !in m.username
    requires Survives(fits, m)
    ensures Readable(m.fileName)
  {
    hide RenderLine, LeadingLines, Members, Closing, FormatMetadata, RenderLines, ReadMembers, ReadObject, Readable,
      NameAt, EndAt, UserLine, UserMembers, ReadString, ReadValue, SkipSpace, AllInRange, SizeIn;
    if UserMembers(m.username).Some? {
      ReadBodyAfterUser(m);
    } else {
      ReadBody(m, None);
    }
    NameParts(m);
    var s, p := FormatMetadata(m), NameAt(m);
    var before, ms := Members(LeadingLines(m)) + UserMembers(m.username).value, ReadMembers(s, p, TOP).value;
    FirstMember(s, p, TOP);
    FirstKeyIsFound(ms, "file_name");
    FieldOfBoth(before, ms, "file_name");
    var k := FieldIsMember(ms, "file_name");
    WholeTextIsReadable(s, p, TOP, EndAt(m) - |m.fileName| - 2, m.fileName, k);
  }

  /** The user name breaks the text, and there is an opening brace in it. */
  ghost predicate LeavesOpen(username: Bytes) { UserMembers(username) == None && '{' in username }

  /** The reply is read back unchanged if and only if the file name is readable and the user name is
      allowed. The one exception is an unreadable file name beside a user name that may leave an object
      open. */
  lemma MetadataSurvivesIff(fits: Bytes -> bool, m: Metadata)
    ensures Readable(m.fileName) || !LeavesOpen(m.username) ==>
      (Survives(fits, m) <==> Readable(m.fileName) && UserAllows(fits, m.username, m.fileSize))
  {
    hide Survives, UserAllows, Readable, UserMembers;
    if Readable(m.fileName) {
      ReadableNameSurvivesIff(fits, m);
    } else if Survives(fits, m) && !LeavesOpen(m.username) {
      OnlyReadableNamesSurvive(fits, m);
    }
  }

  /** A file name that is a quote makes the download handler panic ... */
  lemma QuotedFileNamePanics(fits: Bytes -> bool, m: Metadata)
    requires m.fileName == "\""
    ensures ReadMetadata(fits, FormatMetadata(m)) == None
  {
    hide RenderLine, LeadingLines, Members, Closing, FormatMetadata, RenderLines, ReadMembers, ReadKey, EndAt, NameAt,
      ReadObject, UserMembers, UserLine;
    NameParts(m);
    var s, v := FormatMetadata(m), EndAt(m) - 3;
    assert s[v + 1 + 0] == m.fileName[0];
    forall depth ensures ReadMembers(s, NameAt(m), depth) == Fail {
      ReadMembersStops(s, NameAt(m), v, depth);
    }
    ReadBody(m, Some(Fail));
  }

  /** ... and so does a user name that is one, whatever the file name. */
  lemma QuotedUserNamePanics(fits: Bytes -> bool, m: Metadata)
    requires m.username == "\""
    ensures ReadMetadata(fits, FormatMetadata(m)) == None
  {
    hide RenderLine, LeadingLines, Members, FormatMetadata, ReadMembers, ReadKey, NameAt, ReadObject, UserObject,
      Readable;
    ReadBody(m, None);
    UserObjectIsRead(m.username);
    UserObjectParts(m.username);
    KeysAreReadable();
    var g := UserObject(m.username);
    ReadRenderedKey(g, 1, UserLine(m.username));
    var v := |g| - 1 - |RenderValue(Text(m.username))|;
    TextParts(g, v, m.username);
    assert g[v + 1 + 0] == m.username[0];
    ReadMembersStops(g, 1, v, TOP);
  }

  // ---------------------------------------------------------------------------------------------
  // A file name that is swallowed
  // ---------------------------------------------------------------------------------------------

  /** A file name that closes an object, and how it is written as a JSON string. */
  function Swallowed(): Bytes { "\"" + Closes() }
  function Closes(): Bytes { "},\"\":\"" }
  function Escaped(): Bytes { "\\\"},\\\"\\\":\\\"" }

  /** A user name that gives this file name itself, and opens an object for the real one to end up in. */
  function Swallowing(): Bytes { "\"" + Opens() }
  function Opens(): Bytes { ",\"file_name\":\"" + (Escaped() + "\",\"\":{\"\":\"") }

  /** The last three steps of `FirstLine`, for a pair. */
  lemma FirstPair(s: Bytes, p: nat, depth: nat, key: Bytes, v: Json, more: Bytes)
    requires Readable(key) && PlainValue(v) && At(s, p, Pair(key, v) + ("," + more))
    ensures var q := p + |Pair(key, v)| + 1;
      && q + |more| <= |s| && At(s, q, more)
      && ReadMembers(s, p, depth) == Prepend([Member(key, v)], ReadMembers(s, q, depth))
  {
    hide Pair, ReadMember, ReadMembers, PlainValue, Readable;
    var q := p + |Pair(key, v)|;
    AtParts(s, p, Pair(key, v), "," + more);
    AtHead(s, q, ',', more);
    ReadPair(s, p, depth, key, v);
    ReadMembersStep(s, p, depth, Member(key, v), q);
  }

  /** The same for a text with escapes in it. */
  lemma FirstEscaped(s: Bytes, p: nat, depth: nat, key: Bytes, raw: Bytes, t: Bytes, more: Bytes)
    requires Readable(key) && ReadString(raw + "\"", 0) == Done(t, |raw| + 1)
    requires At(s, p, Pair(key, Text(raw)) + ("," + more))
    ensures var q := p + |Pair(key, Text(raw))| + 1;
      && q + |more| <= |s| && At(s, q, more)
      && ReadMembers(s, p, depth) == Prepend([Member(key, Text(t))], ReadMembers(s, q, depth))
  {
    hide ReadMembers, Readable, ReadKey, ReadText, Utf8, At;
    var q := p + |Pair(key, Text(raw))|;
    AtParts(s, p, Pair(key, Text(raw)), "," + more);
    AtHead(s, q, ',', more);
    assert [] + RenderValue(Text(raw)) == RenderValue(Text(raw));
    NothingStands(s, p);
    ReadQuotedKey(s, p, [], key, [], RenderValue(Text(raw)));
    var v := p + |key| + 3;
    TextParts(s, v, raw);
    TextWithQuote(s, v, raw);
    TextElsewhere(s, v + 1, raw + "\"", 0);
    assert ReadMember(s, p, depth) == Done(Member(key, Text(t)), q);
    hide ReadMember, Pair;
    ReadMembersStep(s, p, depth, Member(key, Text(t)), q);
  }

  lemma NothingStands(s: Bytes, p: nat)
    requires p <= |s|
    ensures At(s, p, [])
  {}

  /** A text that begins with a quote looks like an empty text, and then goes on. */
  lemma SplitLine(l: Line, t: Bytes)
    requires l.member.value == Text("\"" + t)
    ensures RenderLine(l) == RenderLine(l.(member := l.member.(value := Text([])))) + (t + "\"")
  {
    var q, w, key, sp, rest := "\"", NewLine(40), l.member.key, l.space, t + "\"";
    var empty := RenderValue(Text([]));
    assert RenderValue(l.member.value) == empty + rest;
    hide NewLine, RenderValue;
    assert sp + (empty + rest) == (sp + empty) + rest;
    assert ":" + ((sp + empty) + rest) == (":" + (sp + empty)) + rest;
    assert q + ((":" + (sp + empty)) + rest) == (q + (":" + (sp + empty))) + rest;
    assert key + ((q + (":" + (sp + empty))) + rest) == (key + (q + (":" + (sp + empty)))) + rest;
    assert q + ((key + (q + (":" + (sp + empty)))) + rest) == (q + (key + (q + (":" + (sp + empty))))) + rest;
    var front := q + (key + (q + (":" + (sp + empty))));
    assert w + (front + rest) == (w + front) + rest;
  }

  lemma EscapedIsSwallowed()
    ensures ReadString(Escaped() + "\"", 0) == Done(Swallowed(), |Escaped()| + 1)
  {
    var s := Escaped() + "\"";
    assert s[0] == '\\' && s[1] == '"' && s[2] == '}' && s[3] == ',' && s[4] == '\\' && s[5] == '"';
    assert s[6] == '\\' && s[7] == '"' && s[8] == ':' && s[9] == '\\' && s[10] == '"' && s[11] == '"';
    assert ReadText(s, 11) == Done([], 12);
    hide ReadText;
    var t9 := NextQuote(s, 9, []);
    var t8 := NextChar(s, 8, t9);
    var t6 := NextQuote(s, 6, t8);
    var t4 := NextQuote(s, 4, t6);
    var t3 := NextChar(s, 3, t4);
    var t2 := NextChar(s, 2, t3);
    var t0 := NextQuote(s, 0, t2);
    assert t0 == Swallowed();
    AsciiIsUtf8(Swallowed(), 0);
  }

  lemma NextQuote(s: Bytes, p: nat, t: Bytes) returns (longer: Bytes)
    requires p + 2 < |s| && s[p] == '\\' && s[p + 1] == '"' && ReadText(s, p + 2) == Done(t, |s|)
    ensures longer == ['"'] + t && ReadText(s, p) == Done(longer, |s|)
  {
    longer := ['"'] + t;
  }

  lemma NextChar(s: Bytes, p: nat, t: Bytes) returns (longer: Bytes)
    requires p + 1 < |s| && s[p] >= ' ' && s[p] != '"' && s[p] != '\\' && ReadText(s, p + 1) == Done(t, |s|)
    ensures longer == [s[p]] + t && ReadText(s, p) == Done(longer, |s|)
  {
    longer := [s[p]] + t;
  }

  ghost function EmptyPair(): Bytes { Pair([], Text([])) }

  /** What follows the empty user name, piece by piece. */
  ghost function AfterUser(name: Bytes): Bytes {
    Pair("file_name", Text(Escaped())) + ("," + ("\"\":{" + (EmptyPair() + ("," + (name + ("}" + AfterName()))))))
  }

  ghost function AfterName(): Bytes { "," + (EmptyPair() + Closing()) }

  lemma OpensParts(e: Bytes)
    ensures (",\"file_name\":\"" + (e + "\",\"\":{\"\":\"")) + "\"" ==
      "," + (Pair("file_name", Text(e)) + ("," + ("\"\":{" + EmptyPair())))
  {
    var q := "\"";
    var front, back := q + ("file_name" + (q + (":" + q))), "," + ("\"\":{" + EmptyPair());
    EmptyPairIs();
    assert ",\"file_name\":\"" == "," + front;
    assert "\",\"\":{\"\":\"" + q == q + back;
    hide EmptyPair;
    PairAround("file_name", e, back);
    Around("," + front, e, "\",\"\":{\"\":\"", q);
    assert ("," + front) + (e + (q + back)) == "," + (front + (e + (q + back)));
  }

  lemma Around(a: Bytes, b: Bytes, c: Bytes, d: Bytes)
    ensures (a + (b + c)) + d == a + (b + (c + d))
  {}

  lemma PairAround(key: Bytes, e: Bytes, back: Bytes)
    ensures var q := "\""; (q + (key + (q + (":" + q)))) + (e + (q + back)) == Pair(key, Text(e)) + back
  {
    var q := "\"";
    assert (e + q) + back == e + (q + back);
    assert (q + (e + q)) + back == q + (e + (q + back));
    assert (":" + (q + (e + q))) + back == (":" + q) + (e + (q + back));
    assert (q + (":" + (q + (e + q)))) + back == (q + (":" + q)) + (e + (q + back));
    assert (key + (q + (":" + (q + (e + q))))) + back == (key + (q + (":" + q))) + (e + (q + back));
  }

  lemma EmptyPairIs()
    ensures EmptyPair() == "\"\":\"\""
  {}

  lemma ClosesParts()
    ensures Closes() + "\"" == "}" + ("," + EmptyPair())
  {
    EmptyPairIs();
    hide EmptyPair;
  }

  /** `x` and `y` are the parts of the first line after the user name, `z` and `w` of the second. */
  lemma Regrouped(a: Bytes, x: Bytes, y: Bytes, z: Bytes, n: Bytes, k: Bytes)
    ensures (a + ("," + (x + ("," + (y + z))))) + ("," + ((n + ("}" + ("," + z))) + k)) ==
      a + ("," + (x + ("," + (y + (z + ("," + (n + ("}" + ("," + (z + k))))))))))
  {
    var r := "," + ((n + ("}" + ("," + z))) + k);
    assert (n + ("}" + ("," + z))) + k == n + ("}" + ("," + (z + k)));
    assert (y + z) + r == y + (z + r);
    assert ("," + (y + z)) + r == "," + (y + (z + r));
    assert (x + ("," + (y + z))) + r == x + ("," + (y + (z + r)));
    assert (a + ("," + (x + ("," + (y + z))))) + r == a + ("," + (x + ("," + (y + (z + r)))));
  }

  lemma SwallowedBody(m: Metadata)
    requires m.username == Swallowing() && m.fileName == Swallowed()
    ensures At(FormatMetadata(m), UserAt(m),
               RenderLine(UserLine([])) + ("," + AfterUser(RenderLine(NameLine(m.(fileName := []))))))
    ensures |FormatMetadata(m)| ==
      UserAt(m) + |RenderLine(UserLine([]))| + 1 + |AfterUser(RenderLine(NameLine(m.(fileName := []))))|
  {
    var s, lead := FormatMetadata(m), RenderLines(LeadingLines(m));
    var a, n := RenderLine(UserLine([])), RenderLine(NameLine(m.(fileName := [])));
    var user, name := RenderLine(UserLine(m.username)), RenderLine(NameLine(m));
    OpensParts(Escaped());
    ClosesParts();
    SplitLine(UserLine(m.username), Opens());
    SplitLine(NameLine(m), Closes());
    assert s == "{" + (lead + (user + ("," + (name + Closing()))));
    hide RenderLine, RenderLines, LeadingLines, FormatMetadata, Closing, Pair, EmptyPair;
    Regrouped(a, Pair("file_name", Text(Escaped())), "\"\":{", EmptyPair(), n, Closing());
    WholeTextStands(s, lead, user + ("," + (name + Closing())));
  }

  lemma WholeTextStands(s: Bytes, lead: Bytes, rest: Bytes)
    requires s == "{" + (lead + rest)
    ensures At(s, 1 + |lead|, rest) && |s| == 1 + |lead| + |rest|
  {
    assert At(s, 0, "{" + (lead + rest));
    AtParts(s, 0, "{", lead + rest);
    AtParts(s, 1, lead, rest);
  }

  /** The object that the user name opens is closed by the file name. */
  lemma NestedMember(s: Bytes, p: nat, l: Line, more: Bytes)
    requires PlainLine(l) && At(s, p, "\"\":{" + (EmptyPair() + ("," + (RenderLine(l) + ("}" + more)))))
    ensures var q := p + 4 + |EmptyPair()| + 1 + |RenderLine(l)| + 1;
      && At(s, q, more)
      && ReadMember(s, p, TOP) == Done(Member([], Object([Member([], Text([])), l.member])), q)
  {
    hide RenderLine, ReadMembers, ReadKey, ReadValue, PlainLine, Pair, EmptyPair, At;
    NestedKey(s, p, EmptyPair() + ("," + (RenderLine(l) + ("}" + more))));
    NestedObject(s, p + 3, l, more);
  }

  lemma NestedKey(s: Bytes, p: nat, rest: Bytes)
    requires At(s, p, "\"\":{" + rest)
    ensures p + 3 < |s| && ReadKey(s, p) == Done([], p + 3) && s[p + 3] == '{' && At(s, p + 4, rest)
  {
    assert "\"\":{" + rest == "\"" + ([] + ("\"" + (":" + ([] + ("{" + rest)))));
    NothingStands(s, p);
    AsciiIsReadable([]);
    hide ReadKey, Readable;
    ReadQuotedKey(s, p, [], [], [], "{" + rest);
    AtHead(s, p + 3, '{', rest);
  }

  lemma NestedObject(s: Bytes, p: nat, l: Line, more: Bytes)
    requires PlainLine(l) && p < |s| && s[p] == '{'
    requires At(s, p + 1, EmptyPair() + ("," + (RenderLine(l) + ("}" + more))))
    ensures var q := p + 1 + |EmptyPair()| + 1 + |RenderLine(l)| + 1;
      && At(s, q, more)
      && ReadValue(s, p, TOP) == Done(Object([Member([], Text([])), l.member]), q)
  {
    hide RenderLine, ReadMembers, ReadValue, PlainLine, EmptyPair, At;
    EmptyPairStarts(s, p + 1, "," + (RenderLine(l) + ("}" + more)));
    NestedMembers(s, p + 1, l, more);
    BracesNest(s, p, [Member([], Text([])), l.member], p + 1 + |EmptyPair()| + 1 + |RenderLine(l)| + 1);
  }

  lemma EmptyPairStarts(s: Bytes, p: nat, more: Bytes)
    requires At(s, p, EmptyPair() + more)
    ensures p < |s| && s[p] == '"'
  {
    EmptyPairIs();
    hide EmptyPair;
    AtFirst(s, p, EmptyPair() + more);
  }

  lemma NestedMembers(s: Bytes, p: nat, l: Line, more: Bytes)
    requires PlainLine(l) && At(s, p, EmptyPair() + ("," + (RenderLine(l) + ("}" + more))))
    ensures var q := p + |EmptyPair()| + 1 + |RenderLine(l)| + 1;
      p <= |s| && At(s, q, more) && ReadMembers(s, p, TOP - 1) == Done([Member([], Text([])), l.member], q)
  {
    hide RenderLine, ReadMembers, PlainLine, EmptyPair, At, Prepend;
    var q := p + |EmptyPair()| + 1;
    NestedPair(s, p, RenderLine(l) + ("}" + more));
    LastLine(s, q, l, more);
    PrependOne(Member([], Text([])), [l.member], q + |RenderLine(l)| + 1);
    assert [Member([], Text([]))] + [l.member] == [Member([], Text([])), l.member];
  }

  lemma NestedPair(s: Bytes, p: nat, more: Bytes)
    requires At(s, p, EmptyPair() + ("," + more))
    ensures var q := p + |EmptyPair()| + 1;
      && q + |more| <= |s| && At(s, q, more)
      && ReadMembers(s, p, TOP - 1) == Prepend([Member([], Text([]))], ReadMembers(s, q, TOP - 1))
  {
    hide ReadMembers, Pair;
    AsciiIsReadable([]);
    FirstPair(s, p, TOP - 1, [], Text([]), more);
  }

  lemma LastLine(s: Bytes, p: nat, l: Line, more: Bytes)
    requires PlainLine(l) && At(s, p, RenderLine(l) + ("}" + more))
    ensures var q := p + |RenderLine(l)| + 1;
      p <= |s| && At(s, q, more) && ReadMembers(s, p, TOP - 1) == Done([l.member], q)
  {
    hide RenderLine, ReadMembers, ReadMember, PlainLine;
    var q := p + |RenderLine(l)|;
    AtParts(s, p, RenderLine(l), "}" + more);
    AtHead(s, q, '}', more);
    ReadLine(s, p, TOP - 1, l);
    LastMember(s, p, TOP - 1, l.member, q);
  }

  lemma BracesNest(s: Bytes, p: nat, ms: seq<Member>, q: nat)
    requires p + 1 < |s| && s[p] == '{' && s[p + 1] == '"' && ReadMembers(s, p + 1, TOP - 1) == Done(ms, q)
    ensures ReadValue(s, p, TOP) == Done(Object(ms), q)
  {
    hide ReadMembers;
    assert ReadBraces(s, p + 1, TOP - 1) == Done(ms, q);
    assert ReadNested(s, p, TOP) == Done(Object(ms), q);
  }

  lemma LastMember(s: Bytes, p: nat, depth: nat, m: Member, q: nat)
    requires p <= |s| && ReadMember(s, p, depth) == Done(m, q) && q < |s| && s[q] == '}'
    ensures ReadMembers(s, p, depth) == Done([m], q + 1)
  {
    hide ReadMember;
    MembersFrom(s, p, depth);
  }

  lemma ReadAfterName(s: Bytes, p: nat)
    requires At(s, p, AfterName()) && |s| == p + |AfterName()|
    ensures s[p] == ',' && ReadMembers(s, p + 1, TOP) == Done([Member([], Text([]))], |s|)
  {
    hide Closing, Pair, ReadMembers, ReadMember;
    AtHead(s, p, ',', EmptyPair() + Closing());
    AtParts(s, p + 1, EmptyPair(), Closing());
    var q := p + 1 + |EmptyPair()|;
    AsciiIsReadable([]);
    assert PlainValue(Text([]));
    assert Closing() == NewLine(36) + "}" by { ClosingIs(); }
    AtParts(s, q, NewLine(36), "}");
    BlanksThenBrace(s, q, NewLine(36));
    ReadPair(s, p + 1, TOP, [], Text([]));
    ReadMembersStep(s, p + 1, TOP, Member([], Text([])), q);
  }

  lemma ClosingIs()
    ensures Closing() == NewLine(36) + "}"
  {}

  ghost function SwallowedTail(m: Member): seq<Member> {
    [ Member("file_name", Text(Swallowed())), Member([], Object([Member([], Text([])), m])), Member([], Text([])) ]
  }

  lemma ReadAfterUser(s: Bytes, p: nat, l: Line)
    requires PlainLine(l) && At(s, p, AfterUser(RenderLine(l))) && |s| == p + |AfterUser(RenderLine(l))|
    ensures ReadMembers(s, p, TOP) == Done(SwallowedTail(l.member), |s|)
  {
    var nested := "\"\":{" + (EmptyPair() + ("," + (RenderLine(l) + ("}" + AfterName()))));
    KeysAreReadable();
    EscapedIsSwallowed();
    hide RenderLine, ReadMembers, ReadMember, PlainLine, Pair, EmptyPair, AfterName, Readable, ReadString;
    FirstEscaped(s, p, TOP, "file_name", Escaped(), Swallowed(), nested);
    var q := p + |Pair("file_name", Text(Escaped()))| + 1;
    NestedMember(s, q, l, AfterName());
    var e := q + 4 + |EmptyPair()| + 1 + |RenderLine(l)| + 1;
    ReadAfterName(s, e);
    var m := Member([], Object([Member([], Text([])), l.member]));
    ReadMembersStep(s, q, TOP, m, e);
    assert [m] + [Member([], Text([]))] == [m, Member([], Text([]))];
    assert [Member("file_name", Text(Swallowed()))] + [m, Member([], Text([]))]
        == [Member("file_name", Text(Swallowed())), m, Member([], Text([]))];
  }

  ghost function SwallowedMembers(): seq<Member> {
    [Member("username", Text([]))] + SwallowedTail(Member("file_name", Text([])))
  }

  lemma PrependOne(m: Member, ms: seq<Member>, end: nat)
    ensures Prepend([m], Done(ms, end)) == Done([m] + ms, end)
  {}

  lemma ReadFromUser(s: Bytes, p: nat, u: Line, l: Line)
    requires PlainLine(u) && PlainLine(l) && At(s, p, RenderLine(u) + ("," + AfterUser(RenderLine(l))))
    requires |s| == p + |RenderLine(u)| + 1 + |AfterUser(RenderLine(l))|
    ensures ReadMembers(s, p, TOP) == Done([u.member] + SwallowedTail(l.member), |s|)
  {
    hide RenderLine, ReadMembers, PlainLine, AfterUser, SwallowedTail, Prepend, At;
    FirstLine(s, p, TOP, u, AfterUser(RenderLine(l)));
    ReadAfterUser(s, p + |RenderLine(u)| + 1, l);
    PrependOne(u.member, SwallowedTail(l.member), |s|);
  }

  lemma SwallowedIsRead(m: Metadata)
    requires m.username == Swallowing() && m.fileName == Swallowed()
    ensures UserAt(m) <= |FormatMetadata(m)|
    ensures ReadMembers(FormatMetadata(m), UserAt(m), TOP) == Done(SwallowedMembers(), |FormatMetadata(m)|)
  {
    hide RenderLine, FormatMetadata, ReadMembers, PlainLine, AfterUser, UserAt, Swallowed, Swallowing,
      SwallowedTail, At;
    EmptyLinesArePlain(m);
    SwallowedBody(m);
    ReadFromUser(FormatMetadata(m), UserAt(m), UserLine([]), NameLine(m.(fileName := [])));
  }

  lemma EmptyLinesArePlain(m: Metadata)
    ensures PlainLine(UserLine([])) && PlainLine(NameLine(m.(fileName := [])))
  {
    KeysAreReadable();
    AsciiIsReadable([]);
    hide Readable;
  }

  /** So an unreadable file name can survive, whatever the file size: the download handler takes the
      name that the user name gives, and the line of the file name is read into another object. */
  lemma SwallowedNameSurvives(fits: Bytes -> bool, m: Metadata)
    requires m.username == Swallowing() && m.fileName == Swallowed()
    ensures Survives(fits, m) && !Readable(m.fileName) && LeavesOpen(m.username)
  {
    var s, ls := FormatMetadata(m), LeadingLines(m);
    hide RenderLine, RenderLines, LeadingLines, FormatMetadata, ReadMembers, PlainLine, ReadObject, Survives, Readable,
      Swallowed, Swallowing, SwallowedMembers, At, Members, UserAt;
    QuoteAndBrace();
    SwallowedIsRead(m);
    BodyParts(m);
    LeadingLinesArePlain(m);
    assert UserAt(m) == 1 + |RenderLines(ls)| by { UserStarts(m); }
    ReadLines(s, 1, TOP, ls);
    OpensWithMember(s, 1, ls);
    ReadObjectStep(s);
    NoSpaceAtEnd(s);
    SurvivesAnyway(fits, m);
    hide UserMembers;
    if UserMembers(m.username).Some? {
      OnlyReadableNamesSurvive(fits, m);
    }
  }

  lemma UserStarts(m: Metadata)
    ensures UserAt(m) == 1 + |RenderLines(LeadingLines(m))|
  {}

  lemma QuoteAndBrace()
    ensures !Readable(Swallowed()) && '{' in Swallowing()
  {
    assert Swallowed()[0] == '"' && Swallowing()[|Swallowing()| - 5] == '{';
  }

  lemma SurvivesAnyway(fits: Bytes -> bool, m: Metadata)
    requires m.fileName == Swallowed()
    requires ReadObject(FormatMetadata(m)) == Some(Members(LeadingLines(m)) + SwallowedMembers())
    ensures Survives(fits, m)
  {
    var before, ms := Members(LeadingLines(m)), SwallowedMembers();
    hide LeadingLines, FormatMetadata, ReadObject, Members, AsU64, Print, Swallowed;
    LeadingMembers(m, fits);
    PrintedU64(m.fileSize);
    BothInRange(fits, before, ms);
    FieldOfBoth(before, ms, "file_size");
    FieldOfBoth(before, ms, "file_name");
    OnlyFileName(ms);
    assert AllInRange(fits, ms[2].value.members);
  }

  lemma OnlyFileName(ms: seq<Member>)
    requires |ms| == 4 && ms[0].key == "username" && ms[1].key == "file_name" && ms[2].key == ms[3].key == []
    ensures Field(ms, "file_size") == None && Field(ms, "file_name") == Some(ms[1].value)
  {
    DifferentKeys();
    FieldSkips(ms, "file_size");
    FieldSkips(ms, "file_name");
    FieldSkips(ms[..3], "file_size");
    FieldSkips(ms[..3], "file_name");
    FieldSkips(ms[..2], "file_size");
    FieldSkips(ms[..1], "file_size");
    assert ms[..3][..2] == ms[..2] && ms[..2][..1] == ms[..1] && ms[..1][..0] == [];
  }

  lemma FieldSkips(ms: seq<Member>, key: Bytes)
    requires ms != [] && ms[|ms| - 1].key != key
    ensures Field(ms, key) == Field(ms[..|ms| - 1], key)
  {}

  lemma DifferentKeys()
    ensures "file_name" != "file_size" && [] != "file_size" && [] != "file_name" && |"username"| != |"file_size"|
  {
    assert "file_name"[5] != "file_size"[5];
  }

  // ---------------------------------------------------------------------------------------------
  // Credentials
  // ---------------------------------------------------------------------------------------------

  function Pair(key: Bytes, v: Json): Bytes { "\"" + (key + ("\"" + (":" + RenderValue(v)))) }

  /** The body of a successful registration. */
  function FormatCredential(id: u64, passcode: Passcode): Bytes {
    "{" + (Pair("public_id", Number(Print(id))) + ("," + (Pair("passcode", Text(passcode)) + "}")))
  }

  predicate Alphanumeric(s: Bytes) {
    forall i :: 0 <= i < |s| ==> IsDigit(s[i]) || 'a' <= s[i] <= 'z' || 'A' <= s[i] <= 'Z'
  }

  lemma ReadPair(s: Bytes, p: nat, depth: nat, key: Bytes, v: Json)
    requires Readable(key) && PlainValue(v) && At(s, p, Pair(key, v))
    requires p + |Pair(key, v)| < |s| && EndsValue(s[p + |Pair(key, v)|])
    ensures ReadMember(s, p, depth) == Done(Member(key, v), p + |Pair(key, v)|)
  {
    hide ReadKey, ReadValue, Readable, IsInteger, RenderValue, EndsValue, Pair;
    PairParts(s, p, key, v);
    ReadRenderedValue(s, p + |key| + 3, depth, v);
  }

  lemma PairParts(s: Bytes, p: nat, key: Bytes, v: Json)
    requires Readable(key) && PlainValue(v) && At(s, p, Pair(key, v))
    ensures s[p] == '"' && ReadKey(s, p) == Done(key, p + |key| + 3) && At(s, p + |key| + 3, RenderValue(v))
    ensures |Pair(key, v)| == |key| + 3 + |RenderValue(v)|
  {
    var value := RenderValue(v);
    ValueStarts(v);
    hide Readable, RenderValue, ReadKey, PlainValue;
    assert [] + value == value;
    AtHead(s, p, '"', key + ("\"" + (":" + value)));
    ReadQuotedKey(s, p, [], key, [], value);
  }

  lemma JoinedParts(s: Bytes, a: Bytes, b: Bytes)
    requires s == "{" + (a + ("," + (b + "}")))
    ensures s[0] == '{' && At(s, 1, a) && s[1 + |a|] == ',' && At(s, 2 + |a|, b)
    ensures |s| == 3 + |a| + |b| && s[|s| - 1] == '}'
  {
    var d := b + "}";
    var c := "," + d;
    assert At(s, 0, s);
    hide At;
    AtHead(s, 0, '{', a + c);
    AtParts(s, 1, a, c);
    AtHead(s, 1 + |a|, ',', d);
    AtParts(s, 2 + |a|, b, "}");
    AtFirst(s, 2 + |a| + |b|, "}");
  }

  lemma TwoMembers(s: Bytes, n: nat, x: Member, y: Member)
    requires 2 + n < |s| && s[0] == '{' && s[1] == '"' && s[1 + n] == ',' && s[|s| - 1] == '}'
    requires ReadMember(s, 1, TOP) == Done(x, 1 + n) && ReadMember(s, 2 + n, TOP) == Done(y, |s| - 1)
    ensures ReadObject(s) == Some([x, y])
  {
    hide ReadMember, ReadObject;
    assert SkipSpace(s, |s|) == |s|;
    assert ReadMembers(s, 2 + n, TOP) == Done([y], |s|);
    ReadMembersStep(s, 1, TOP, x, 1 + n);
    assert [x] + [y] == [x, y];
    ReadObjectStep(s);
  }

  lemma ReadTwoPairs(s: Bytes, j: Bytes, x: Json, k: Bytes, y: Json)
    requires Readable(j) && Readable(k) && PlainValue(x) && PlainValue(y)
    requires s == "{" + (Pair(j, x) + ("," + (Pair(k, y) + "}")))
    ensures ReadObject(s) == Some([Member(j, x), Member(k, y)])
  {
    hide Readable, PlainValue, At, Pair, ReadMember, ReadObject, RenderValue;
    JoinedParts(s, Pair(j, x), Pair(k, y));
    ReadPair(s, 1, TOP, j, x);
    ReadPair(s, 2 + |Pair(j, x)|, TOP, k, y);
    PairParts(s, 1, j, x);
    TwoMembers(s, |Pair(j, x)|, Member(j, x), Member(k, y));
  }

  /** A client reads out of the body exactly the id and the passcode that were issued to it. */
  lemma CredentialRoundTrip(id: u64, passcode: Passcode)
    requires Alphanumeric(passcode)
    ensures ReadObject(FormatCredential(id, passcode)) ==
      Some([Member("public_id", Number(Print(id))), Member("passcode", Text(passcode))])
    ensures AsU64(Print(id)) == Some(id)
  {
    KeysAreReadable();
    AsciiIsReadable(passcode);
    PrintedU64(id);
    hide Pair, ReadObject, Readable, IsInteger, AsU64, Print;
    ReadTwoPairs(FormatCredential(id, passcode), "public_id", Number(Print(id)), "passcode", Text(passcode));
  }
}
