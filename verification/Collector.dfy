/** The receiving half of a request, and the upload handler that feeds it. */
module Collector {
  import opened Common
  import opened TimedMaps

  /** One item of a request channel: a chunk, or the error of the stream that produced it. */
  datatype Item = Chunk(bytes: Bytes) | Broken

  datatype Outcome = Body(bytes: Bytes) | Status(code: nat) | Panic

  const NOT_FOUND := 404
  const REQUEST_TIMEOUT := 408
  const PAYLOAD_TOO_LARGE := 413
  const SERVER_ERROR := 500
  const OK := 200

  function Concat(items: seq<Item>): Bytes {
    if items == [] then []
    else Concat(items[..|items| - 1]) + (match items[|items| - 1] case Chunk(b) => b case Broken => [])
  }

  ghost predicate AllChunks(items: seq<Item>) {
    forall i :: 0 <= i < |items| ==> items[i].Chunk?
  }

  /** Item `i` ends the collection: it is broken, or with it the total passes the limit. The first
      item is not held against the limit. */
  ghost predicate Offends(items: seq<Item>, limit: Option<nat>, i: nat)
    requires i < |items|
  {
    items[i].Broken? || (i > 0 && limit.Some? && |Concat(items[..i + 1])| > limit.value)
  }

  ghost predicate Acceptable(items: seq<Item>, limit: Option<nat>) {
    forall i :: 0 <= i < |items| ==> !Offends(items, limit, i)
  }

  /** The closed form: everything, or the complaint about the first offending item. */
  ghost predicate IsVerdict(items: seq<Item>, limit: Option<nat>, outcome: Outcome) {
    if Acceptable(items, limit) then outcome == Body(Concat(items))
    else exists i: nat :: FirstOffence(items, limit, i) && outcome == Complaint(items[i])
  }

  function Complaint(x: Item): Outcome {
    Status(if x.Broken? then SERVER_ERROR else PAYLOAD_TOO_LARGE)
  }

  ghost predicate FirstOffence(items: seq<Item>, limit: Option<nat>, i: nat) {
    i < |items| && Offends(items, limit, i) && Acceptable(items[..i], limit)
  }

  /** Offences are decided by the items up to them, so a longer stream has the same first one. */
  lemma OffenceIsLocal(items: seq<Item>, limit: Option<nat>, n: nat, i: nat)
    requires i < n <= |items|
    ensures Offends(items[..n], limit, i) <==> Offends(items, limit, i)
  {
    assert items[..n][..i + 1] == items[..i + 1];
  }

  lemma FirstOffenceIsUnique(items: seq<Item>, limit: Option<nat>, i: nat, j: nat)
    requires FirstOffence(items, limit, i) && FirstOffence(items, limit, j)
    ensures i == j
  {
    if i < j {
      OffenceIsLocal(items, limit, j, i);
    } else if j < i {
      OffenceIsLocal(items, limit, i, j);
    }
  }

  lemma VerdictIsUnique(items: seq<Item>, limit: Option<nat>, a: Outcome, b: Outcome)
    requires IsVerdict(items, limit, a) && IsVerdict(items, limit, b)
    ensures a == b
  {
    if !Acceptable(items, limit) {
      var i: nat :| FirstOffence(items, limit, i) && a == Complaint(items[i]);
      var j: nat :| FirstOffence(items, limit, j) && b == Complaint(items[j]);
      FirstOffenceIsUnique(items, limit, i, j);
    }
  }

  lemma {:induction false} ConcatGrows(items: seq<Item>, n: nat)
    requires n <= |items|
    ensures |Concat(items[..n])| <= |Concat(items)|
  {
    if n < |items| {
      ConcatGrows(items[..|items| - 1], n);
      assert items[..|items| - 1][..n] == items[..n];
    } else {
      assert items[..n] == items;
    }
  }

  /** A body comes back exactly when no item is broken and there is one chunk, or no limit, or the
      total is within it; and it is then the whole concatenation. */
  lemma BodyIff(items: seq<Item>, limit: Option<nat>)
    requires items != []
    ensures (exists b :: IsVerdict(items, limit, Body(b))) <==>
      AllChunks(items) && (|items| == 1 || limit == None || |Concat(items)| <= limit.value)
    ensures forall b :: IsVerdict(items, limit, Body(b)) ==> b == Concat(items)
  {
    var n := |items|;
    if AllChunks(items) && (n == 1 || limit == None || |Concat(items)| <= limit.value) {
      forall i | 0 <= i < n ensures !Offends(items, limit, i) {
        ConcatGrows(items, i + 1);
      }
      assert IsVerdict(items, limit, Body(Concat(items)));
    } else if Acceptable(items, limit) {
      assert items[..n] == items;
      assert !Offends(items, limit, n - 1);
      forall i | 0 <= i < n ensures items[i].Chunk? {
        assert !Offends(items, limit, i);
      }
    }
  }

  lemma {:induction false} FirstOffenceExists(items: seq<Item>, limit: Option<nat>) returns (i: nat)
    requires !Acceptable(items, limit)
    ensures FirstOffence(items, limit, i)
  {
    var n := |items| - 1;
    if Acceptable(items[..n], limit) {
      forall j | 0 <= j < n ensures !Offends(items, limit, j) {
        OffenceIsLocal(items, limit, n, j);
      }
      i := n;
    } else {
      i := FirstOffenceExists(items[..n], limit);
      OffenceIsLocal(items, limit, n, i);
      assert items[..n][..i] == items[..i];
    }
  }

  /** A verdict of 413 or 500 is final: no continuation of the stream changes it. */
  lemma ComplaintIsFinal(items: seq<Item>, more: seq<Item>, limit: Option<nat>, code: nat)
    requires IsVerdict(items, limit, Status(code))
    ensures IsVerdict(items + more, limit, Status(code))
  {
    var i: nat :| FirstOffence(items, limit, i) && Status(code) == Complaint(items[i]);
    var all := items + more;
    assert all[..|items|] == items;
    OffenceIsLocal(all, limit, |items|, i);
    assert all[..i] == items[..i];
    assert FirstOffence(all, limit, i);
  }

  lemma AcceptableExtended(items: seq<Item>, x: Item, limit: Option<nat>)
    requires Acceptable(items, limit)
    ensures forall i :: 0 <= i < |items| ==> !Offends(items + [x], limit, i)
  {
    var all := items + [x];
    assert all[..|items|] == items;
    forall i | 0 <= i < |items| ensures !Offends(all, limit, i) {
      OffenceIsLocal(all, limit, |items|, i);
    }
  }

  lemma ConcatOne(items: seq<Item>, x: Item)
    ensures x.Chunk? ==> Concat(items + [x]) == Concat(items) + x.bytes
    ensures (items + [x])[..|items| + 1] == items + [x] && (items + [x])[..|items|] == items
  {
    var all := items + [x];
    assert all[..|all| - 1] == items;
  }

  /** Taking one more item, as one turn of the loop does. */
  lemma TakeOne(items: seq<Item>, x: Item, limit: Option<nat>)
    requires Acceptable(items, limit)
    ensures var total := Concat(items) + (if x.Chunk? then x.bytes else []);
      if x.Broken? || (items != [] && limit.Some? && |total| > limit.value)
      then IsVerdict(items + [x], limit, Complaint(x))
      else Acceptable(items + [x], limit) && Concat(items + [x]) == total
  {
    var all, n := items + [x], |items|;
    AcceptableExtended(items, x, limit);
    ConcatOne(items, x);
    hide Concat;
    if Offends(all, limit, n) {
      assert FirstOffence(all, limit, n);
    }
  }

  function Max(a: nat, b: nat): nat { if a < b then b else a }

  ghost predicate ChunksAtMost(items: seq<Item>, size: nat) {
    forall i :: 0 <= i < |items| && items[i].Chunk? ==> |items[i].bytes| <= size
  }

  // ---------------------------------------------------------------------------------------------
  // The code
  // ---------------------------------------------------------------------------------------------

  /** A receiver, with everything that will ever come out of it before it closes. */
  class Receiver {
    var coming: seq<Item>

    constructor (items: seq<Item>)
      ensures coming == items
    {
      coming := items;
    }

    method Recv() returns (r: Option<Item>)
      modifies this
      ensures old(coming) == [] ==> r == None && coming == []
      ensures old(coming) != [] ==> r == Some(old(coming)[0]) && coming == old(coming)[1..]
    {
      if coming == [] {
        r := None;
      } else {
        r, coming := Some(coming[0]), coming[1..];
      }
    }
  }

  datatype AgentNotice = UploadTooSlow | FileTooLarge

  /** The sender towards the agent's websocket: it refuses once the handler is gone. */
  class AgentLink {
    var open: bool
    var notices: seq<AgentNotice>

    constructor (open: bool)
      ensures this.open == open && notices == []
    {
      this.open, notices := open, [];
    }

    method Send(n: AgentNotice) returns (sent: bool)
      modifies this
      ensures open == old(open) && sent == open
      ensures notices == if open then old(notices) + [n] else old(notices)
    {
      sent := open;
      if open {
        notices := notices + [n];
      }
    }
  }

  datatype First = Got(bytes: Bytes) | Refused(code: nat)

  /** Waits for the first item. A broken item is answered like a timeout. */
  method WaitForBytes(recv: Receiver, timedOut: bool) returns (r: First)
    modifies recv
    ensures r.Got? <==> !timedOut && old(recv.coming) != [] && old(recv.coming)[0].Chunk?
    ensures r.Got? ==> r.bytes == old(recv.coming)[0].bytes
    ensures r.Refused? ==>
      r.code == if !timedOut && old(recv.coming) == [] then 404 else 408
    ensures recv.coming ==
      if timedOut || old(recv.coming) == [] then old(recv.coming) else old(recv.coming)[1..]
  {
    if timedOut {
      return Refused(REQUEST_TIMEOUT);
    }
    var x := recv.Recv();
    match x
    case Some(Chunk(b)) => r := Got(b);
    case None => r := Refused(NOT_FOUND);
    case Some(Broken) => r := Refused(REQUEST_TIMEOUT);
  }

  /**
    `collect_bytes`. After an accepted first item the answer is the closed form over all items; a
    refusal withdraws the request and tells the agent; and the buffer never holds more than the
    limit, or the first chunk if that is longer, plus one chunk. Nothing is read behind the first
    offending item.
  */
  method CollectBytes(id: RequestId, recv: Receiver, timedOut: bool,
                      requests: TimedHashMap<RequestId, ChannelId>, agent: AgentLink, limit: Option<nat>,
                      ghost longest: nat)
    returns (r: Outcome, ghost peak: nat)
    requires requests.Valid()
    modifies recv, requests, agent
    ensures requests.Valid()
    ensures var items := old(recv.coming);
      if !timedOut && items != [] && items[0].Chunk? then
        && requests.entries == old(requests.entries)
        && IsVerdict(items, limit, if r == Panic then Status(413) else r)
        && (r == Panic ==> !agent.open) && (r == Status(413) ==> agent.open)
        && (r == Status(413) ==> agent.notices == old(agent.notices) + [FileTooLarge])
        && (r != Status(413) ==> agent.notices == old(agent.notices))
        && |recv.coming| < |items| && recv.coming == items[|items| - |recv.coming|..]
        && (if r.Body? then recv.coming == [] else FirstOffence(items, limit, |items| - |recv.coming| - 1))
        && Holds(items[..|items| - |recv.coming|], peak)
        && (limit.Some? && r.Body? ==> |r.bytes| <= Max(limit.value, |items[0].bytes|))
        && (limit.Some? && ChunksAtMost(items, longest) ==> peak <= Max(limit.value, |items[0].bytes|) + longest)
      else
        && r == Status(if !timedOut && items == [] then 404 else 408)
        && AsMap(requests.entries) == AsMap(old(requests.entries)) - {id}
        && agent.notices == old(agent.notices) + (if agent.open then [UploadTooSlow] else [])
    ensures agent.open == old(agent.open)
  {
    hide Acceptable, IsVerdict, Concat, ChunksAtMost, Holds, FirstOffence;
    ghost var items := recv.coming;
    peak := 0;
    var first := WaitForBytes(recv, timedOut);
    if first.Refused? {
      var _ := requests.Remove(id);
      var _ := agent.Send(UploadTooSlow);
      return Status(first.code), peak;
    }
    var bytes := first.bytes;
    peak := |bytes|;
    ghost var n := 1;
    TakeFirst(items, limit);
    while true
      invariant 1 <= n <= |items| && recv.coming == items[n..]
      invariant Acceptable(items[..n], limit) && bytes == Concat(items[..n]) && |bytes| <= peak
      invariant limit.Some? ==> |bytes| <= Max(limit.value, |items[0].bytes|)
      invariant limit.Some? && ChunksAtMost(items, longest) ==> peak <= Max(limit.value, |items[0].bytes|) + longest
      invariant agent.open == old(agent.open) && agent.notices == old(agent.notices)
      invariant requests.Valid() && requests.entries == old(requests.entries)
      decreases |recv.coming|
    {
      var x := recv.Recv();
      if x.None? {
        break;
      }
      TakeNext(items, n, limit, longest);
      HoldsNext(items, n, peak);
      if x.value.Broken? {
        return Status(SERVER_ERROR), peak;
      }
      bytes := bytes + x.value.bytes;
      peak := Max(peak, |bytes|);
      if limit.Some? && |bytes| > limit.value {
        var sent := agent.Send(FileTooLarge);
        return if sent then Status(PAYLOAD_TOO_LARGE) else Panic, peak;
      }
      n := n + 1;
    }
    TakenAll(items, n, limit);
    HoldsSoFar(items[..n], peak);
    r := Body(bytes);
  }

  lemma TakeFirst(items: seq<Item>, limit: Option<nat>)
    requires items != [] && items[0].Chunk?
    ensures Acceptable(items[..1], limit) && Concat(items[..1]) == items[0].bytes
  {
    TakeOne([], items[0], limit);
    assert [] + [items[0]] == items[..1];
  }

  lemma TakeNext(items: seq<Item>, n: nat, limit: Option<nat>, longest: nat)
    requires 0 < n < |items| && Acceptable(items[..n], limit)
    ensures items[n].Chunk? && ChunksAtMost(items, longest) ==> |items[n].bytes| <= longest
    ensures var total := Concat(items[..n]) + (if items[n].Chunk? then items[n].bytes else []);
      if items[n].Broken? || (limit.Some? && |total| > limit.value)
      then IsVerdict(items, limit, Complaint(items[n])) && FirstOffence(items, limit, n)
      else Acceptable(items[..n + 1], limit) && Concat(items[..n + 1]) == total
  {
    TakeOne(items[..n], items[n], limit);
    assert items[..n] + [items[n]] == items[..n + 1];
    ConcatOne(items[..n], items[n]);
    hide IsVerdict, Acceptable, Concat;
    if IsVerdict(items[..n + 1], limit, Complaint(items[n])) {
      EndsWith(items, n, limit, Complaint(items[n]).code);
    }
  }

  /** The buffer that these items are collected in never has more than `peak` bytes. */
  ghost predicate Holds(items: seq<Item>, peak: nat) {
    forall i :: 0 <= i <= |items| ==> |Concat(items[..i])| <= peak
  }

  lemma HoldsSoFar(items: seq<Item>, peak: nat)
    requires |Concat(items)| <= peak
    ensures Holds(items, peak)
  {
    forall i | 0 <= i <= |items| ensures |Concat(items[..i])| <= peak {
      ConcatGrows(items, i);
    }
  }

  lemma HoldsNext(items: seq<Item>, n: nat, peak: nat)
    requires n < |items| && |Concat(items[..n])| <= peak
    ensures items[n].Broken? ==> Holds(items[..n + 1], peak)
    ensures items[n].Chunk? ==> Holds(items[..n + 1], Max(peak, |Concat(items[..n]) + items[n].bytes|))
  {
    assert items[..n] + [items[n]] == items[..n + 1];
    ConcatOne(items[..n], items[n]);
    assert items[n].Broken? ==> Concat(items[..n + 1]) == Concat(items[..n]);
    hide Concat, Holds;
    HoldsSoFar(items[..n + 1], if items[n].Broken? then peak else Max(peak, |Concat(items[..n]) + items[n].bytes|));
  }

  lemma TakenAll(items: seq<Item>, n: nat, limit: Option<nat>)
    requires n <= |items| && items[n..] == [] && Acceptable(items[..n], limit)
    ensures IsVerdict(items, limit, Body(Concat(items[..n])))
  {
    assert items[..n] == items;
  }

  lemma EndsWith(items: seq<Item>, n: nat, limit: Option<nat>, code: nat)
    requires n < |items| && IsVerdict(items[..n + 1], limit, Status(code))
    ensures IsVerdict(items, limit, Status(code))
  {
    assert items == items[..n + 1] + items[n + 1..];
    ComplaintIsFinal(items[..n + 1], items[n + 1..], limit, code);
  }

  /** `construct_stream` followed by the streaming of the body: every item goes on, unchanged and
      in order, including a broken one in the middle. */
  method ConstructStream(id: RequestId, recv: Receiver, timedOut: bool,
                         requests: TimedHashMap<RequestId, ChannelId>, agent: AgentLink)
    returns (code: nat, streamed: seq<Item>)
    requires requests.Valid()
    modifies recv, requests, agent
    ensures requests.Valid()
    ensures var items := old(recv.coming);
      if !timedOut && items != [] && items[0].Chunk? then
        code == 200 && streamed == items && requests.entries == old(requests.entries)
      else
        && code == (if !timedOut && items == [] then 404 else 408) && streamed == []
        && AsMap(requests.entries) == AsMap(old(requests.entries)) - {id}
        && agent.notices == old(agent.notices) + (if agent.open then [UploadTooSlow] else [])
    ensures agent.open == old(agent.open)
  {
    ghost var items := recv.coming;
    var first := WaitForBytes(recv, timedOut);
    if first.Refused? {
      var _ := requests.Remove(id);
      var _ := agent.Send(UploadTooSlow);
      return first.code, [];
    }
    code, streamed := OK, [Chunk(first.bytes)];
    var x := recv.Recv();
    while x.Some?
      invariant items == streamed + (if x.Some? then [x.value] else []) + recv.coming
      invariant x.None? ==> recv.coming == []
      invariant requests.Valid() && requests.entries == old(requests.entries)
      invariant agent.open == old(agent.open)
      decreases x.Some?, |recv.coming|
    {
      streamed := streamed + [x.value];
      x := recv.Recv();
    }
  }

  /**
    `__upload`. `accepted` is how many chunks the waiting client takes before it goes away. The
    request is claimed even if the upload then fails, and no other request is touched.
  */
  method Upload(payload: seq<Item>, requests: TimedHashMap<RequestId, ChannelId>, id: RequestId, accepted: nat)
    returns (code: nat, channel: Option<ChannelId>, sent: seq<Item>)
    requires requests.Valid()
    modifies requests
    ensures requests.Valid() && AsMap(requests.entries) == AsMap(old(requests.entries)) - {id}
    ensures channel == if id in AsMap(old(requests.entries)) then Some(AsMap(old(requests.entries))[id]) else None
    ensures channel == None ==> code == 404 && sent == []
    ensures channel.Some? ==>
      && sent == (if accepted < |payload| then payload[..accepted] else payload)
      && code == (if accepted < |payload| then 500 else 200)
  {
    channel := requests.Remove(id);
    sent := [];
    if channel == None {
      return NOT_FOUND, channel, sent;
    }
    while |sent| < |payload|
      invariant |sent| <= |payload| && |sent| <= accepted && sent == payload[..|sent|]
    {
      if |sent| == accepted {
        return SERVER_ERROR, channel, sent;
      }
      sent := sent + [payload[|sent|]];
    }
    code := OK;
  }
}
