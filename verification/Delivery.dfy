/** What a client gets, in every reachable state of the broker. */
module Delivery {
  import opened Common
  import opened Collector
  import opened Broker
  import A = Agents
  import H = Handlers
  import AS = AgentSafety
  import R = Requests
  import RS = RequestSafety
  import Codec
  import Decimals
  import JsonReading

  ghost predicate HasChannel(s: State, t: TaskId) {
    t in s.r.tasks && s.r.tasks[t].rx.Some? && s.r.tasks[t].rx.value in s.r.channels
  }

  ghost function ItemsOf(s: State, t: TaskId): seq<Item>
    requires HasChannel(s, t)
  {
    s.r.channels[s.r.tasks[t].rx.value].delivered
  }

  /** `x` is the responder that took the sender of the request that `t` currently has. */
  ghost predicate Answers(s: State, t: TaskId, x: ResponderId) {
    HasChannel(s, t) && x in s.r.responders && s.r.responders[x].took == s.r.tasks[t].rx
  }

  /** All that a task has received is an initial part of what one responder, aiming at that very
      request, has sent; and that is an initial part of what it set out to send. */
  lemma OneResponder(s: State, t: TaskId) returns (x: ResponderId)
    requires Inv(s) && HasChannel(s, t) && ItemsOf(s, t) != []
    ensures Answers(s, t, x) && s.r.responders[x].target == s.r.tasks[t].rid
    ensures var y := s.r.responders[x];
      y.sent <= |R.Payload(y.reply)| && ItemsOf(s, t) <= R.Payload(y.reply)[..y.sent] <= R.Payload(y.reply)
    ensures forall z :: Answers(s, t, z) ==> z == x
  {
    var ch := s.r.tasks[t].rx.value;
    assert RS.TaskOk(s.r, t) && RS.ChannelOk(s.r, ch);
    x := s.r.channels[ch].sender.x;
    assert RS.ResponderOk(s.r, x);
    forall z | Answers(s, t, z) ensures z == x {
      assert RS.ResponderOk(s.r, z);
    }
    var y := s.r.responders[x];
    assert R.Payload(y.reply)[..y.sent] == ItemsOf(s, t) + s.r.channels[ch].queue;
  }

  /** The task has seen the end of its channel. */
  predicate SawEnd(pc: R.TaskPc) { pc == R.Parsing || pc == R.Ended || (pc.Exited? && pc.outcome.Body?) }

  /** When the channel has closed, what arrived is everything that was sent; and unless its handler
      was cancelled, that is everything the responder set out to send. */
  lemma WholeAnswer(s: State, t: TaskId) returns (x: ResponderId)
    requires Inv(s) && t in s.r.tasks && SawEnd(s.r.tasks[t].pc)
    ensures Answers(s, t, x) && s.r.responders[x].target == s.r.tasks[t].rid
    ensures var y := s.r.responders[x];
      && (y.pc == R.Done(R.Completed) || y.pc == R.Done(R.Cancelled))
      && y.sent <= |R.Payload(y.reply)| && ItemsOf(s, t) == R.Payload(y.reply)[..y.sent]
      && (y.pc == R.Done(R.Completed) ==> ItemsOf(s, t) == R.Payload(y.reply))
  {
    EndMeansDrained(s, t);
    x := OneResponder(s, t);
    assert RS.ResponderOk(s.r, x) && RS.ChannelOk(s.r, s.r.tasks[t].rx.value);
    hide Inv, ItemsOf, R.Payload;
    DrainedMeansDone(s.r, s.r.tasks[t].rx.value, x);
    var y := s.r.responders[x];
    if y.sent == |R.Payload(y.reply)| {
      assert R.Payload(y.reply)[..y.sent] == R.Payload(y.reply);
    }
    assert s.r.channels[s.r.tasks[t].rx.value].delivered == ItemsOf(s, t) by { ItemsAre(s, t); }
  }

  lemma ItemsAre(s: State, t: TaskId)
    requires HasChannel(s, t)
    ensures ItemsOf(s, t) == s.r.channels[s.r.tasks[t].rx.value].delivered
  {}

  lemma EndMeansDrained(s: State, t: TaskId)
    requires Inv(s) && t in s.r.tasks && SawEnd(s.r.tasks[t].pc)
    ensures HasChannel(s, t) && RS.Drained(s.r, s.r.tasks[t].rx.value) && ItemsOf(s, t) != []
  {
    assert RS.TaskOk(s.r, t);
    hide RS.Drained, IsVerdict, R.Limit, R.Collects;
  }

  lemma DrainedMeansDone(r: R.Requests, ch: ChannelId, x: ResponderId)
    requires RS.Drained(r, ch) && RS.ChannelOk(r, ch) && RS.ResponderOk(r, x)
    requires x in r.responders && r.responders[x].took == Some(ch)
    ensures var y := r.responders[x];
      && (y.pc == R.Done(R.Completed) || y.pc == R.Done(R.Cancelled))
      && y.sent <= |R.Payload(y.reply)| && r.channels[ch].delivered == R.Payload(y.reply)[..y.sent]
      && (y.pc == R.Done(R.Completed) ==> y.sent == |R.Payload(y.reply)|)
  {
    hide R.Payload;
    assert r.channels[ch].delivered + [] == r.channels[ch].delivered;
    match r.responders[x].pc {
      case Arrived =>
      case Sending(_) =>
      case Done(end) => assert end != R.NoSuchRequest && end != R.ClientGone;
    }
  }

  /** A collected body is the closed form of what one responder sent: of its whole payload, if it
      was not cancelled. */
  lemma CollectedBody(s: State, t: TaskId, b: Bytes) returns (x: ResponderId)
    requires Inv(s) && t in s.r.tasks && s.r.tasks[t].pc == R.Exited(Body(b))
    ensures Answers(s, t, x)
    ensures var y := s.r.responders[x];
      && y.sent <= |R.Payload(y.reply)| && b == Concat(R.Payload(y.reply)[..y.sent])
      && (y.pc == R.Done(R.Completed) ==> IsVerdict(R.Payload(y.reply), R.Limit(s.r.tasks[t]), Body(b)))
  {
    assert RS.TaskOk(s.r, t);
    x := WholeAnswer(s, t);
  }

  /** A complaint of the collector is its verdict on the responder's whole payload, however much of
      it was received. */
  lemma CollectedComplaint(s: State, t: TaskId, code: nat) returns (x: ResponderId)
    requires Inv(s) && t in s.r.tasks && s.r.tasks[t].pc == R.Exited(Status(code))
    requires code != 404 && code != 408
    ensures Answers(s, t, x)
    ensures IsVerdict(R.Payload(s.r.responders[x].reply), R.Limit(s.r.tasks[t]), Status(code))
  {
    assert RS.TaskOk(s.r, t);
    x := OneResponder(s, t);
    var items, p := ItemsOf(s, t), R.Payload(s.r.responders[x].reply);
    hide R.Payload, R.Limit;
    ComplaintIsFinal(items, p[|items|..], R.Limit(s.r.tasks[t]), code);
    assert items + p[|items|..] == p;
  }

  /** A 404 after the wait means that somebody took the request and ended without sending anything. */
  lemma NotFoundMeansEmptyAnswer(s: State, t: TaskId) returns (x: ResponderId)
    requires Inv(s) && t in s.r.tasks && s.r.tasks[t].pc == R.Exited(Status(404))
    ensures Answers(s, t, x) && s.r.responders[x].pc.Done? && s.r.responders[x].sent == 0
  {
    assert RS.TaskOk(s.r, t);
    var ch := s.r.tasks[t].rx.value;
    assert RS.ChannelOk(s.r, ch);
    NoSuchVerdict(ItemsOf(s, t), R.Limit(s.r.tasks[t]));
    assert RS.NoBody(ItemsOf(s, t), RS.Drained(s.r, ch), 404);
    x := s.r.channels[ch].sender.x;
    assert RS.ResponderOk(s.r, x);
  }

  lemma NoSuchVerdict(items: seq<Item>, limit: Option<nat>)
    ensures !IsVerdict(items, limit, Status(404))
  {}

  /** A metadata reply reaches the download handler unchanged, whether or not its future was cut
      off after the send; and the handler reads name and size back out of it, without a panic,
      exactly if the file name is readable and the user name is allowed. Undecided is only an
      unreadable file name beside a user name that may leave an object open. */
  lemma MetadataReachesDownload(s: State, t: TaskId, x: ResponderId, m: Codec.Metadata)
    requires Inv(s) && R.At(s.r, t, R.Parsing)
    requires Answers(s, t, x) && s.r.responders[x].reply == R.MetadataReply(m)
    ensures s.r.tasks[t].acc == Codec.FormatMetadata(m)
    ensures var after := R.AfterParse(s.r, t, s.fits).tasks[t];
      (after.pc == R.Online && after.fileName == m.fileName && after.fileSize == m.fileSize) <==>
        Codec.Survives(s.fits, m)
    ensures R.AfterParse(s.r, t, s.fits).tasks[t].pc == R.Aborted(R.ParsePanic) <==>
      Codec.ReadMetadata(s.fits, Codec.FormatMetadata(m)) == None
    ensures JsonReading.Readable(m.fileName) || !Codec.LeavesOpen(m.username) ==>
      (Codec.Survives(s.fits, m) <==>
         JsonReading.Readable(m.fileName) && Codec.UserAllows(s.fits, m.username, m.fileSize))
  {
    MetadataCollected(s, t, x, m);
    hide Inv, Codec.FormatMetadata, Codec.ReadMetadata, JsonReading.Readable, Codec.UserAllows,
      Codec.LeavesOpen;
    Codec.MetadataSurvivesIff(s.fits, m);
  }

  lemma MetadataCollected(s: State, t: TaskId, x: ResponderId, m: Codec.Metadata)
    requires Inv(s) && R.At(s.r, t, R.Parsing)
    requires Answers(s, t, x) && s.r.responders[x].reply == R.MetadataReply(m)
    ensures s.r.tasks[t].acc == Codec.FormatMetadata(m)
  {
    hide Codec.FormatMetadata;
    assert RS.TaskOk(s.r, t);
    var z := WholeAnswer(s, t);
    var z' := OneResponder(s, t);
    assert z == x && z' == x;
    hide Inv;
    OnlyChunk(ItemsOf(s, t), Codec.FormatMetadata(m));
  }

  /** What is about to be read as metadata is the concatenation of what one responder sent. */
  lemma ParsingCollected(s: State, t: TaskId, x: ResponderId)
    requires Inv(s) && R.At(s.r, t, R.Parsing) && Answers(s, t, x)
    ensures !s.r.tasks[t].second
    ensures var y := s.r.responders[x];
      && y.sent <= |R.Payload(y.reply)| && s.r.tasks[t].acc == Concat(R.Payload(y.reply)[..y.sent])
      && (y.pc == R.Done(R.Completed) ==> y.sent == |R.Payload(y.reply)|)
  {
    assert RS.TaskOk(s.r, t) && RS.ResponderOk(s.r, x);
    var z := WholeAnswer(s, t);
    var z' := OneResponder(s, t);
    assert z == x && z' == x;
  }

  lemma OnlyChunk(items: seq<Item>, b: Bytes)
    requires items != [] && items <= [Chunk(b)]
    ensures items == [Chunk(b)] && Concat(items) == b
  {
    ConcatOne([], Chunk(b));
    assert [] + [Chunk(b)] == [Chunk(b)];
    assert Concat([]) + b == b;
  }

  /** The message that a task puts last into its agent's queue names the task's own request; an upload
      is to go to the server's own base url. */
  ghost predicate AsksFor(m: H.Message, task: R.Task, base: Bytes) {
    match m
    case UploadTo(file, url) =>
      task.kind == R.ForDownload && task.second && file == task.file
      && base + "/upload/" <= url && Decimals.ParseU64(url[|base| + 8..]) == Some(task.rid)
    case MetadataReq(file, id) =>
      task.kind != R.ForStatus && !(task.kind == R.ForDownload && task.second) && file == task.file && id == task.rid
    case StatusReq(agent, id) => task.kind == R.ForStatus && agent == task.agent && id == task.rid
    case _ => false
  }

  lemma AskNamesItsRequest(s: State, t: TaskId)
    requires Inv(s) && R.At(s.r, t, R.Routed) && CanTell(s, t) && WsOpen(s, t)
    ensures var q := Apply(s, Ask(t)).a.conns[s.r.tasks[t].ws].h.queue;
      && q != [] && q[..|q| - 1] == s.a.conns[s.r.tasks[t].ws].h.queue
      && q[|q| - 1].SendMessage? && AsksFor(q[|q| - 1].msg, s.r.tasks[t], s.base)
  {
    hide Inv, Codec.UploadUrl, Codec.LastSegment, Decimals.ParseU64;
    Codec.UploadUrlRoundTrip(s.base, s.r.tasks[t].rid);
  }

  /** And whoever takes a request under the id of a waiting task takes that task's own sender. */
  lemma TakerServesTheTask(s: State, t: TaskId, x: ResponderId)
    requires Inv(s) && HasChannel(s, t) && R.CanTake(s.r, x)
    requires s.r.responders[x].target == s.r.tasks[t].rid && s.r.tasks[t].rid in s.r.registry
    ensures Answers(Apply(s, Take(x)), t, x)
    ensures Apply(s, Take(x)).r.registry == s.r.registry - {s.r.tasks[t].rid}
  {
    assert RS.TaskOk(s.r, t) && RS.RegistryOk(s.r);
    var ch := s.r.registry[s.r.tasks[t].rid];
    assert s.r.channels[ch].rid == s.r.channels[s.r.tasks[t].rx.value].rid;
    hide Inv, RS.TaskOk;
  }

  /** Every exit of `collect_bytes`, and every return of `construct_stream`, leaves its request
      unregistered. */
  lemma NoStaleRequest(s: State, t: TaskId)
    requires Inv(s) && t in s.r.tasks && RS.Settled(s.r.tasks[t].pc)
    ensures s.r.tasks[t].rid !in s.r.registry && HasChannel(s, t) && s.r.tasks[t].rid in s.r.used
  {
    assert RS.TaskOk(s.r, t);
  }

  /** The second look-up of an agent cannot fail: nobody gets past the read guard of the first. */
  lemma LookUpSucceeds(s: State, t: TaskId)
    requires Inv(s) && R.At(s.r, t, R.Asking)
    ensures s.r.tasks[t].agent in s.a.servers
    ensures Apply(s, LookUp(t)).r.tasks[t].pc == R.Routed
    ensures forall x: A.Step :: A.WritesServers(x) ==> !Enabled(s, AgentStep(x))
  {
    assert Guarded(s, t);
  }

  /** Once its handler has returned, a task holds up nobody, however long the client goes on reading; and
      from the check to then it keeps everybody from being published or taken off the list. */
  lemma GuardEnds(s: State, t: TaskId)
    requires Inv(s) && t in s.r.tasks
    ensures t in s.readers <==>
      s.r.tasks[t].pc != R.Start && s.r.tasks[t].pc != R.Streaming && !R.IsOver(s.r.tasks[t].pc)
    ensures t in s.readers ==> forall x: A.Step :: A.WritesServers(x) ==> !Enabled(s, AgentStep(x))
  {
    assert Guarded(s, t);
  }

  /** While a responder holds the registry of requests, nothing in it changes. */
  lemma RegistryIsHeld(s: State, step: Step)
    requires Enabled(s, step) && s.r.lock.Some?
    ensures Apply(s, step).r.registry == s.r.registry
  {
    if OfTask(step) {
      HeldByTask(s, step);
    } else {
      HeldByResponder(s, step);
    }
    hide Apply, Enabled;
  }

  lemma HeldByResponder(s: State, step: Step)
    requires Enabled(s, step) && s.r.lock.Some? && !OfTask(step)
    ensures Apply(s, step).r.registry == s.r.registry
  {
    hide A.Apply, A.Enabled, R.Payload;
  }

  lemma HeldByTask(s: State, step: Step)
    requires Enabled(s, step) && s.r.lock.Some? && OfTask(step)
    ensures Apply(s, step).r.registry == s.r.registry
  {
    hide A.Sent, Question, R.CanReceive, R.AfterReceive, R.AfterParse, R.Over;
    match step
    case Receive(t) => ReceivingLeavesRegistry(s.r, t);
    case Parse(t) => ParsingLeavesRegistry(s.r, t, s.fits);
    case LookUp(t) => OverLeavesRegistry(s.r, t, R.Aborted(R.LookupPanic));
    case Ask(t) => OverLeavesRegistry(s.r, t, R.Aborted(if s.r.tasks[t].second then R.AgentGone else R.SendPanic));
    case Notify(t) => OverLeavesRegistry(s.r, t, R.Exited(Status(s.r.tasks[t].pc.code)));
    case Reject(t) =>
      OverLeavesRegistry(s.r, t, if WsOpen(s, t) then R.Exited(Status(413)) else R.Aborted(R.SendPanic));
    case Drop(t) => OverLeavesRegistry(s.r, t, R.Aborted(R.Dropped));
    case _ =>
  }

  lemma ReceivingLeavesRegistry(r: R.Requests, t: TaskId)
    requires R.CanReceive(r, t)
    ensures R.AfterReceive(r, t).registry == r.registry
  {
    hide R.OnItem, R.OnClose, R.SenderAlive;
  }

  lemma ParsingLeavesRegistry(r: R.Requests, t: TaskId, fits: Bytes -> bool)
    requires R.At(r, t, R.Parsing)
    ensures R.AfterParse(r, t, fits).registry == r.registry
  {
    hide Codec.ReadMetadata;
  }

  lemma OverLeavesRegistry(r: R.Requests, t: TaskId, pc: R.TaskPc)
    requires t in r.tasks
    ensures R.Over(r, t, pc).registry == r.registry
  {}

  /** While the watcher is under way, nobody but it touches the list of those who wait. */
  lemma WaitingListIsHeld(a: A.Agents, x: A.Step)
    requires A.Enabled(a, x) && (a.watcher == A.Sweeping || a.watcher.Closing?)
    ensures A.Apply(a, x).unauth == a.unauth || (x.SweepPop? && A.Apply(a, x).unauth == a.unauth - {x.k})
  {
    hide A.Acted, A.CanAct, A.Answer;
  }

  /** Whatever a task asks, it asks a websocket that was opened at the agent's own address, and whose
      sender was published by a future that had validated that id. Whether that future was the
      websocket's own is settled in module Claims. */
  lemma AskedChannelIsPublished(s: State, t: TaskId)
    requires Inv(s) && t in s.r.tasks && HasSender(s.r.tasks[t].pc)
    ensures var k, c := s.r.tasks[t].agent, s.r.tasks[t].ws;
      && AS.InServers(s.a, c) && s.a.conns[c].openedAt == k
      && s.a.hist.published[c] == 1 && s.a.hist.expired[c] == 0
      && s.a.hist.validated[k] >= s.a.hist.publishedIds[k] >= 1 && k in s.a.db
  {
    var k, c := s.r.tasks[t].agent, s.r.tasks[t].ws;
    assert Guarded(s, t);
    assert AS.Filed(s.a);
    assert AS.Balanced(s.a, c);
    assert AS.Authorised(s.a, k);
  }
}
