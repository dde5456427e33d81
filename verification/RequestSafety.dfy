/** What every step of the requests' transition system keeps. */
module RequestSafety {
  import opened Common
  import opened Collector
  import opened Requests
  import Codec

  // ---------------------------------------------------------------------------------------------
  // The registry of requests
  // ---------------------------------------------------------------------------------------------

  /** A request is registered exactly as long as nobody took its sender, and ids are never reused. */
  ghost predicate RegistryOk(r: Requests) {
    && (forall rid :: rid in r.registry ==>
         r.registry[rid] in r.channels && r.channels[r.registry[rid]].rid == rid
         && r.channels[r.registry[rid]].sender == Registered)
    && (forall ch :: ch in r.channels ==> r.channels[ch].rid in r.used)
    && (forall ch :: ch in r.channels && r.channels[ch].sender == Registered ==>
         r.channels[ch].rid in r.registry && r.registry[r.channels[ch].rid] == ch)
    && (forall c, d :: c in r.channels && d in r.channels && r.channels[c].rid == r.channels[d].rid ==> c == d)
  }

  // ---------------------------------------------------------------------------------------------
  // Channels and responders
  // ---------------------------------------------------------------------------------------------

  /** What has passed through a channel is what the one responder that took its sender has sent. */
  ghost predicate ChannelOk(r: Requests, ch: ChannelId) {
    ch in r.channels ==>
      var c := r.channels[ch];
      match c.sender
      case TakenBy(x) =>
        && x in r.responders && r.responders[x].took == Some(ch)
        && r.responders[x].sent <= |Payload(r.responders[x].reply)|
        && c.delivered + c.queue == Payload(r.responders[x].reply)[..r.responders[x].sent]
      case _ => c.queue == [] && c.delivered == []
  }

  ghost predicate ResponderOk(r: Requests, x: ResponderId) {
    && (r.lock == Some(x) ==> x in r.responders && r.responders[x].pc.Sending?)
    && (x in r.responders ==>
      var y := r.responders[x];
      && y.sent <= |Payload(y.reply)|
      && (y.took.Some? ==>
           y.took.value in r.channels && r.channels[y.took.value].sender == TakenBy(x)
           && r.channels[y.took.value].rid == y.target)
      && (y.took == None ==> y.sent == 0 && (y.pc == Arrived || y.pc == Done(NoSuchRequest) || y.pc == Done(Cancelled)))
      && (y.pc == Arrived || y.pc == Done(NoSuchRequest) ==> y.took == None)
      && (y.pc.Sending? ==> y.took == Some(y.pc.ch) && r.lock == Some(x))
      && (y.pc == Done(Completed) ==> y.sent == |Payload(y.reply)|)
      && (y.pc == Done(ClientGone) ==> y.took.Some? && !r.channels[y.took.value].rxOpen))
  }

  // ---------------------------------------------------------------------------------------------
  // Tasks
  // ---------------------------------------------------------------------------------------------

  /** Nothing is left in the channel, nothing will come, and its sender did not end by noticing
      that the client had gone. */
  ghost predicate Drained(r: Requests, ch: ChannelId) {
    && ch in r.channels && r.channels[ch].queue == [] && !SenderAlive(r, ch) && r.channels[ch].sender.TakenBy?
    && (r.channels[ch].sender.x in r.responders ==> r.responders[r.channels[ch].sender.x].pc != Done(ClientGone))
  }

  /** The task has a channel, and the receiver of it is open. */
  predicate Listening(pc: TaskPc) {
    pc == Asking || pc == Routed || pc == Waiting || pc.Failing? || pc.Failed? || pc == Collecting
    || pc == TooLarge || pc == Parsing || pc == Streaming
  }

  /** The collection or the stream has got past its first item, or has given up. */
  predicate Settled(pc: TaskPc) {
    pc.Failed? || pc == Collecting || pc == TooLarge || pc == Parsing || pc == Streaming || pc == Ended || pc.Exited?
  }

  ghost predicate Begun(items: seq<Item>) { items != [] && items[0].Chunk? }

  /** What the items received so far have to do with the place the task is at. */
  ghost predicate Received(task: Task, items: seq<Item>, drained: bool) {
    match task.pc
    case Asking => items == []
    case Routed => items == []
    case Waiting => items == []
    case Collecting => Collects(task) && Begun(items) && Acceptable(items, Limit(task)) && task.acc == Concat(items)
    case TooLarge => Collects(task) && Begun(items) && IsVerdict(items, Limit(task), Status(PAYLOAD_TOO_LARGE))
    case Parsing =>
      && task.kind == ForDownload && !task.second && drained
      && Begun(items) && IsVerdict(items, None, Body(task.acc))
    case Streaming => !Collects(task) && Begun(items)
    case Ended => !Collects(task) && Begun(items) && drained
    case Exited(Body(b)) =>
      Collects(task) && drained && Begun(items) && IsVerdict(items, Limit(task), Body(b))
    case Exited(Status(code)) =>
      || NoBody(items, drained, code)
      || (Collects(task) && Begun(items) && IsVerdict(items, Limit(task), Status(code)))
    case Exited(Panic) => false
    case Failed(code) => NoBody(items, drained, code)
    case Failing(code) => NoBody(items, drained, code)
    case _ => true
  }

  /** Why there was no first chunk: the channel closed without an item, or none came in time, or the
      first item was broken. */
  ghost predicate NoBody(items: seq<Item>, drained: bool, code: nat) {
    || (code == NOT_FOUND && items == [] && drained)
    || (code == REQUEST_TIMEOUT && (items == [] || items == [Broken]))
  }

  ghost predicate TaskOk(r: Requests, t: TaskId) {
    t in r.tasks ==>
      var task := r.tasks[t];
      && (Listening(task.pc) || Settled(task.pc) ==> task.rx.Some?)
      && (task.rx.Some? ==>
           var ch := task.rx.value;
           && ch in r.channels && r.channels[ch].owner == t && r.channels[ch].rid == task.rid
           && Received(task, r.channels[ch].delivered, Drained(r, ch))
           && (Listening(task.pc) ==> r.channels[ch].rxOpen)
           && (Listening(task.pc) && !task.pc.Failed? ==> r.channels[ch].sender != Withdrawn)
           && (Settled(task.pc) ==> task.rid !in r.registry))
  }

  ghost predicate Sound(r: Requests) {
    && RegistryOk(r)
    && (forall ch :: ChannelOk(r, ch))
    && (forall x :: ResponderOk(r, x))
    && (forall t :: TaskOk(r, t))
  }

  lemma SoundInit(r: Requests)
    requires Init(r)
    ensures Sound(r)
  {}

  /** An item that has arrived was sent by somebody who took the sender out of the registry. */
  lemma DeliveredMeansTaken(r: Requests, ch: ChannelId)
    requires RegistryOk(r) && ChannelOk(r, ch) && ch in r.channels
    requires r.channels[ch].delivered != [] || r.channels[ch].queue != [] || !SenderAlive(r, ch)
    ensures r.channels[ch].rid !in r.registry
  {}

  // ---------------------------------------------------------------------------------------------
  // Frames
  // ---------------------------------------------------------------------------------------------

  /** For task `t` nothing has changed but, perhaps, that its channel has dried up. */
  ghost predicate Undisturbed(r: Requests, s: Requests, t: TaskId) {
    && (t in s.tasks <==> t in r.tasks)
    && (t in r.tasks ==>
      var task := r.tasks[t];
      && s.tasks[t] == task
      && (task.rx.Some? && task.rx.value in r.channels ==>
           var ch := task.rx.value;
           && ch in s.channels
           && s.channels[ch].owner == r.channels[ch].owner && s.channels[ch].rid == r.channels[ch].rid
           && s.channels[ch].delivered == r.channels[ch].delivered
           && (r.channels[ch].rxOpen ==> s.channels[ch].rxOpen)
           && (s.channels[ch].sender == Withdrawn ==> r.channels[ch].sender == Withdrawn)
           && (Drained(r, ch) ==> Drained(s, ch))
           && (task.rid in s.registry && r.channels[ch].rid == task.rid ==> task.rid in r.registry)))
  }

  lemma TaskFrame(r: Requests, s: Requests, t: TaskId)
    requires TaskOk(r, t) && Undisturbed(r, s, t)
    ensures TaskOk(s, t)
  {
    hide Drained;
  }

  // ---------------------------------------------------------------------------------------------
  // Responder steps
  // ---------------------------------------------------------------------------------------------

  lemma SoundArrive(r: Requests, x: ResponderId, target: RequestId, reply: Reply)
    requires Sound(r) && CanArrive(r, x)
    ensures Sound(AfterArrive(r, x, target, reply))
  {
    var s := AfterArrive(r, x, target, reply);
    forall ch ensures ChannelOk(s, ch) { assert ChannelOk(r, ch); }
    forall z ensures ResponderOk(s, z) { assert ResponderOk(r, z); }
    forall t ensures TaskOk(s, t) {
      assert TaskOk(r, t);
      TaskFrame(r, s, t);
    }
  }

  lemma RegistryTake(r: Requests, x: ResponderId)
    requires RegistryOk(r) && ResponderOk(r, x) && CanTake(r, x)
    ensures RegistryOk(AfterTake(r, x))
  {}

  lemma ChannelTake(r: Requests, x: ResponderId, ch: ChannelId)
    requires RegistryOk(r) && ChannelOk(r, ch) && ResponderOk(r, x) && CanTake(r, x)
    ensures ChannelOk(AfterTake(r, x), ch)
  {
    hide Payload;
  }

  lemma ResponderTake(r: Requests, x: ResponderId, z: ResponderId)
    requires RegistryOk(r) && ResponderOk(r, z) && CanTake(r, x)
    ensures ResponderOk(AfterTake(r, x), z)
  {
    hide Payload;
  }

  lemma UndisturbedTake(r: Requests, x: ResponderId, t: TaskId)
    requires RegistryOk(r) && CanTake(r, x)
    ensures Undisturbed(r, AfterTake(r, x), t)
  {}

  lemma SoundTake(r: Requests, x: ResponderId)
    requires Sound(r) && CanTake(r, x)
    ensures Sound(AfterTake(r, x))
  {
    assert ResponderOk(r, x);
    RegistryTake(r, x);
    hide RegistryOk, ChannelOk, ResponderOk, TaskOk, CanTake, AfterTake, Undisturbed;
    forall ch ensures ChannelOk(AfterTake(r, x), ch) { ChannelTake(r, x, ch); }
    forall z ensures ResponderOk(AfterTake(r, x), z) { ResponderTake(r, x, z); }
    forall t ensures TaskOk(AfterTake(r, x), t) {
      UndisturbedTake(r, x, t);
      TaskFrame(r, AfterTake(r, x), t);
    }
  }

  /** One more item in the queue is one more item of the payload. */
  lemma ChannelSend(r: Requests, x: ResponderId, ch: ChannelId)
    requires ChannelOk(r, ch) && ResponderOk(r, x) && CanSend(r, x)
    ensures ChannelOk(AfterSend(r, x), ch)
  {
    var y := r.responders[x];
    if ch == y.pc.ch && r.channels[ch].rxOpen {
      var c, p := r.channels[ch], Payload(y.reply);
      assert c.delivered + (c.queue + [p[y.sent]]) == p[..y.sent + 1];
    }
    hide Payload;
  }

  lemma ResponderSend(r: Requests, x: ResponderId, z: ResponderId)
    requires ResponderOk(r, z) && ResponderOk(r, x) && CanSend(r, x)
    ensures ResponderOk(AfterSend(r, x), z)
  {
    hide Payload;
  }

  lemma UndisturbedSend(r: Requests, x: ResponderId, t: TaskId)
    requires ResponderOk(r, x) && CanSend(r, x) && forall ch :: ChannelOk(r, ch)
    ensures Undisturbed(r, AfterSend(r, x), t)
  {
    hide Payload;
    if t in r.tasks && r.tasks[t].rx.Some? {
      assert ChannelOk(r, r.tasks[t].rx.value);
    }
  }

  lemma SoundSend(r: Requests, x: ResponderId)
    requires Sound(r) && CanSend(r, x)
    ensures Sound(AfterSend(r, x))
  {
    var s := AfterSend(r, x);
    assert ResponderOk(r, x);
    assert RegistryOk(s);
    hide RegistryOk, ChannelOk, ResponderOk, TaskOk, CanSend, AfterSend, Undisturbed;
    forall ch ensures ChannelOk(s, ch) { ChannelSend(r, x, ch); }
    forall z ensures ResponderOk(s, z) { ResponderSend(r, x, z); }
    forall t ensures TaskOk(s, t) {
      UndisturbedSend(r, x, t);
      TaskFrame(r, s, t);
    }
  }

  lemma SoundFinish(r: Requests, x: ResponderId)
    requires Sound(r) && CanFinish(r, x)
    ensures Sound(AfterFinish(r, x))
  {
    var s := AfterFinish(r, x);
    assert ResponderOk(r, x);
    forall ch ensures ChannelOk(s, ch) { assert ChannelOk(r, ch); }
    forall z ensures ResponderOk(s, z) { assert ResponderOk(r, z); }
    forall t ensures TaskOk(s, t) {
      assert TaskOk(r, t);
      TaskFrame(r, s, t);
    }
  }

  lemma SoundCancel(r: Requests, x: ResponderId)
    requires Sound(r) && CanCancel(r, x)
    ensures Sound(AfterCancel(r, x))
  {
    var s := AfterCancel(r, x);
    assert ResponderOk(r, x);
    forall ch ensures ChannelOk(s, ch) { assert ChannelOk(r, ch); }
    forall z ensures ResponderOk(s, z) { assert ResponderOk(r, z); }
    forall t ensures TaskOk(s, t) {
      assert TaskOk(r, t);
      TaskFrame(r, s, t);
    }
  }

  // ---------------------------------------------------------------------------------------------
  // Task steps
  // ---------------------------------------------------------------------------------------------

  /** Only task `t` and the receiving side of its own channel have changed. */
  ghost predicate OwnBusiness(r: Requests, s: Requests, t: TaskId) {
    && t in s.tasks && s.tasks == r.tasks[t := s.tasks[t]]
    && s.registry == r.registry && s.responders == r.responders && s.lock == r.lock && s.used == r.used
    && s.channels.Keys == r.channels.Keys
    && forall ch :: ch in r.channels ==> SameOrOwn(r.channels[ch], s.channels[ch], t)
  }

  ghost predicate SameOrOwn(c: Channel, d: Channel, t: TaskId) {
    || d == c
    || (c.owner == t && d == c.(queue := d.queue, delivered := d.delivered, rxOpen := d.rxOpen)
        && c.delivered + c.queue == d.delivered + d.queue && c.delivered <= d.delivered && (d.rxOpen ==> c.rxOpen)
        && (c.queue == [] && c.delivered == [] ==> d.queue == [] && d.delivered == []))
  }

  lemma OwnBusinessKeepsOthers(r: Requests, s: Requests, t: TaskId, z: TaskId)
    requires TaskOk(r, z) && OwnBusiness(r, s, t) && z != t
    ensures TaskOk(s, z)
  {
    assert Undisturbed(r, s, z);
    hide Undisturbed, OwnBusiness, TaskOk;
    TaskFrame(r, s, z);
  }

  lemma OwnBusinessKeepsChannels(r: Requests, s: Requests, t: TaskId)
    requires Sound(r) && OwnBusiness(r, s, t)
    ensures RegistryOk(s) && (forall ch :: ChannelOk(s, ch)) && (forall x :: ResponderOk(s, x))
  {
    hide Payload, TaskOk;
    forall ch ensures ChannelOk(s, ch) {
      assert ChannelOk(r, ch);
      if ch in r.channels { assert SameOrOwn(r.channels[ch], s.channels[ch], t); }
    }
    forall x ensures ResponderOk(s, x) {
      assert ResponderOk(r, x);
      if x in r.responders && r.responders[x].took.Some? {
        var ch := r.responders[x].took.value;
        assert SameOrOwn(r.channels[ch], s.channels[ch], t);
      }
    }
    assert RegistryOk(s) by {
      assert forall ch :: ch in r.channels ==>
        s.channels[ch].rid == r.channels[ch].rid && s.channels[ch].sender == r.channels[ch].sender;
    }
  }

  lemma SoundOwn(r: Requests, s: Requests, t: TaskId)
    requires Sound(r) && OwnBusiness(r, s, t) && TaskOk(s, t)
    ensures Sound(s)
  {
    OwnBusinessKeepsChannels(r, s, t);
    hide RegistryOk, ChannelOk, ResponderOk, OwnBusiness, TaskOk;
    forall z ensures TaskOk(s, z) {
      if z != t {
        OwnBusinessKeepsOthers(r, s, t, z);
      }
    }
  }

  /** Steps that only move the task along. */
  lemma SoundMove(r: Requests, t: TaskId, task: Task)
    requires Sound(r) && TaskOk(WithTask(r, t, task), t)
    ensures Sound(WithTask(r, t, task))
  {
    hide Sound, TaskOk;
    SoundOwn(r, WithTask(r, t, task), t);
  }

  /** Giving up is always sound. */
  lemma SoundAbort(r: Requests, t: TaskId, why: Why)
    requires Sound(r) && t in r.tasks
    ensures Sound(Over(r, t, Aborted(why)))
  {
    assert TaskOk(r, t);
    TaskOver(r, t, Aborted(why));
    OwnOver(r, t, Aborted(why));
    hide Sound, TaskOk, OwnBusiness, Over;
    SoundOwn(r, Over(r, t, Aborted(why)), t);
  }

  /** The outcome that a task about to exit with an error code exits with. */
  ghost predicate MayExit(pc: TaskPc, code: nat) {
    pc == Failed(code) || (pc == TooLarge && code == PAYLOAD_TOO_LARGE)
  }

  lemma TaskOver(r: Requests, t: TaskId, pc: TaskPc)
    requires TaskOk(r, t) && t in r.tasks
    requires pc.Aborted? || (pc.Exited? && pc.outcome.Status? && MayExit(r.tasks[t].pc, pc.outcome.code))
    ensures TaskOk(Over(r, t, pc), t)
  {
    var task, s := r.tasks[t], Over(r, t, pc);
    if task.rx.Some? {
      var ch := task.rx.value;
      assert Received(task, r.channels[ch].delivered, Drained(r, ch));
      assert Received(s.tasks[t], s.channels[ch].delivered, Drained(s, ch));
    }
  }

  lemma OwnOver(r: Requests, t: TaskId, pc: TaskPc)
    requires TaskOk(r, t) && t in r.tasks
    ensures OwnBusiness(r, Over(r, t, pc), t)
  {
    hide Received, Drained;
  }

  lemma SoundBegin(r: Requests, t: TaskId, kind: Kind, agent: ServerId, file: nat)
    requires Sound(r) && t !in r.tasks
    ensures Sound(AfterBegin(r, t, kind, agent, file))
  {
    SoundMove(r, t, Task(kind, agent, file, false, 0, None, 0, Start, [], [], 0));
  }

  /** Nothing but the place of one task has changed: no request, no channel, no responder. */
  ghost predicate OnlyTask(r: Requests, s: Requests, t: TaskId) {
    t in r.tasks && t in s.tasks && s == r.(tasks := r.tasks[t := s.tasks[t]])
  }

  /** ... and the receiver of that task, which is closed. */
  ghost predicate OnlyTaskAndReceiver(r: Requests, s: Requests, t: TaskId) {
    && t in r.tasks && t in s.tasks && r.tasks[t].rx.Some? && r.tasks[t].rx.value in r.channels
    && var ch := r.tasks[t].rx.value;
      s == r.(tasks := r.tasks[t := s.tasks[t]], channels := r.channels[ch := r.channels[ch].(rxOpen := false)])
  }

  lemma SoundCheck(r: Requests, t: TaskId, online: bool)
    requires Sound(r) && At(r, t, Start)
    ensures Sound(AfterCheck(r, t, online)) && OnlyTask(r, AfterCheck(r, t, online), t)
  {
    assert TaskOk(r, t);
    var task := r.tasks[t].(pc := if online then Online else NotOnline);
    assert TaskOk(WithTask(r, t, task), t);
    hide Sound, TaskOk;
    SoundMove(r, t, task);
  }

  lemma TaskOpen(r: Requests, t: TaskId, rid: RequestId, ch: ChannelId, z: TaskId)
    requires RegistryOk(r) && TaskOk(r, z) && CanOpen(r, t, rid, ch)
    ensures TaskOk(AfterOpen(r, t, rid, ch), z)
  {
    if z != t {
      assert Undisturbed(r, AfterOpen(r, t, rid, ch), z);
      hide Undisturbed, AfterOpen, CanOpen, TaskOk, RegistryOk;
      TaskFrame(r, AfterOpen(r, t, rid, ch), z);
    }
  }

  lemma RegistryOpen(r: Requests, t: TaskId, rid: RequestId, ch: ChannelId)
    requires RegistryOk(r) && CanOpen(r, t, rid, ch)
    ensures RegistryOk(AfterOpen(r, t, rid, ch))
  {}

  lemma ChannelsOpen(r: Requests, t: TaskId, rid: RequestId, ch: ChannelId, d: ChannelId, x: ResponderId)
    requires CanOpen(r, t, rid, ch)
    ensures ChannelOk(r, d) ==> ChannelOk(AfterOpen(r, t, rid, ch), d)
    ensures ResponderOk(r, x) ==> ResponderOk(AfterOpen(r, t, rid, ch), x)
  {
    hide Payload;
  }

  lemma SoundOpen(r: Requests, t: TaskId, rid: RequestId, ch: ChannelId)
    requires Sound(r) && CanOpen(r, t, rid, ch)
    ensures Sound(AfterOpen(r, t, rid, ch))
  {
    RegistryOpen(r, t, rid, ch);
    hide RegistryOk, ChannelOk, ResponderOk, TaskOk, CanOpen, AfterOpen;
    forall d ensures ChannelOk(AfterOpen(r, t, rid, ch), d) { ChannelsOpen(r, t, rid, ch, d, 0); }
    forall x ensures ResponderOk(AfterOpen(r, t, rid, ch), x) { ChannelsOpen(r, t, rid, ch, 0, x); }
    forall z ensures TaskOk(AfterOpen(r, t, rid, ch), z) { TaskOpen(r, t, rid, ch, z); }
  }

  lemma SoundRoute(r: Requests, t: TaskId, found: Option<ConnId>)
    requires Sound(r) && At(r, t, Asking)
    ensures Sound(AfterRoute(r, t, found))
    ensures if found.Some? then OnlyTask(r, AfterRoute(r, t, found), t)
            else OnlyTaskAndReceiver(r, AfterRoute(r, t, found), t)
  {
    assert TaskOk(r, t);
    if found.Some? {
      var task := r.tasks[t].(pc := Routed, ws := found.value);
      assert TaskOk(WithTask(r, t, task), t);
      hide Sound, TaskOk;
      SoundMove(r, t, task);
    } else {
      SoundAbort(r, t, LookupPanic);
    }
  }

  lemma SoundAsk(r: Requests, t: TaskId, delivered: bool)
    requires Sound(r) && At(r, t, Routed)
    ensures Sound(AfterAsk(r, t, delivered))
    ensures if delivered then OnlyTask(r, AfterAsk(r, t, delivered), t)
            else OnlyTaskAndReceiver(r, AfterAsk(r, t, delivered), t)
  {
    assert TaskOk(r, t);
    if delivered {
      var task := r.tasks[t].(pc := Waiting);
      assert TaskOk(WithTask(r, t, task), t);
      hide Sound, TaskOk;
      SoundMove(r, t, task);
    } else {
      SoundAbort(r, t, if r.tasks[t].second then AgentGone else SendPanic);
    }
  }

  lemma SoundTimeout(r: Requests, t: TaskId)
    requires Sound(r) && At(r, t, Waiting)
    ensures Sound(AfterTimeout(r, t)) && OnlyTask(r, AfterTimeout(r, t), t)
    ensures r.tasks[t].rx.Some? && r.tasks[t].rx.value in r.channels && r.channels[r.tasks[t].rx.value].delivered == []
  {
    assert TaskOk(r, t);
    var task := r.tasks[t].(pc := Failing(REQUEST_TIMEOUT));
    assert TaskOk(WithTask(r, t, task), t);
    hide Sound, TaskOk;
    SoundMove(r, t, task);
  }

  lemma SoundParse(r: Requests, t: TaskId, fits: Bytes -> bool)
    requires Sound(r) && At(r, t, Parsing)
    ensures Sound(AfterParse(r, t, fits)) && r.tasks[t].rid !in r.registry
    ensures var s := AfterParse(r, t, fits);
      if Codec.ReadMetadata(fits, r.tasks[t].acc).Some?
      then OnlyTask(r, s, t) && s.tasks[t].pc == Online && s.tasks[t].second && s.tasks[t].rx == None
      else OnlyTaskAndReceiver(r, s, t) && s.tasks[t].pc == Aborted(ParsePanic)
  {
    hide Codec.ReadMetadata;
    assert TaskOk(r, t);
    match Codec.ReadMetadata(fits, r.tasks[t].acc)
    case None => SoundAbort(r, t, ParsePanic);
    case Some((name, size)) =>
      var task := r.tasks[t].(pc := Online, second := true, rx := None, fileName := name, fileSize := size);
      assert TaskOk(WithTask(r, t, task), t);
      hide Sound, TaskOk;
      SoundMove(r, t, task);
  }

  lemma SoundExit(r: Requests, t: TaskId, code: nat)
    requires Sound(r) && t in r.tasks
    requires r.tasks[t].pc == Failed(code) || (r.tasks[t].pc == TooLarge && code == PAYLOAD_TOO_LARGE)
    ensures Sound(Over(r, t, Exited(Status(code))))
  {
    assert TaskOk(r, t);
    TaskOver(r, t, Exited(Status(code)));
    OwnOver(r, t, Exited(Status(code)));
    hide Sound, TaskOk, OwnBusiness, Over;
    SoundOwn(r, Over(r, t, Exited(Status(code))), t);
  }

  lemma SoundReject(r: Requests, t: TaskId, delivered: bool)
    requires Sound(r) && At(r, t, TooLarge)
    ensures Sound(AfterReject(r, t, delivered))
  {
    if delivered {
      SoundExit(r, t, PAYLOAD_TOO_LARGE);
    } else {
      SoundAbort(r, t, SendPanic);
    }
  }

  /** The request leaves the registry, if it was still there, and its channel closes. */
  lemma TaskWithdraw(r: Requests, t: TaskId, z: TaskId)
    requires RegistryOk(r) && TaskOk(r, z) && TaskOk(r, t) && CanWithdraw(r, t)
    ensures TaskOk(AfterWithdraw(r, t), z)
  {
    if z != t {
      assert Undisturbed(r, AfterWithdraw(r, t), z);
      hide Undisturbed, AfterWithdraw, CanWithdraw, TaskOk, RegistryOk;
      TaskFrame(r, AfterWithdraw(r, t), z);
    }
  }

  lemma SoundWithdraw(r: Requests, t: TaskId)
    requires Sound(r) && CanWithdraw(r, t)
    ensures Sound(AfterWithdraw(r, t))
  {
    var s := AfterWithdraw(r, t);
    assert TaskOk(r, t);
    assert RegistryOk(s);
    forall d ensures ChannelOk(s, d) { assert ChannelOk(r, d); }
    forall x ensures ResponderOk(s, x) { assert ResponderOk(r, x); }
    hide RegistryOk, ChannelOk, ResponderOk, TaskOk, CanWithdraw, AfterWithdraw;
    forall z ensures TaskOk(s, z) {
      TaskWithdraw(r, t, z);
    }
  }

  /** One more item, as the collector's own loop takes it. */
  lemma ReceivedItem(task: Task, items: seq<Item>, x: Item, before: bool, after: bool)
    requires Received(task, items, before) && (task.pc == Waiting || task.pc == Collecting || task.pc == Streaming)
    ensures Received(task.(pc := OnItem(task, x).0, acc := OnItem(task, x).1), items + [x], after)
  {
    hide OnItem;
    if task.pc == Waiting {
      ReceivedFirst(task, x, after);
      assert items + [x] == [x];
    } else if task.pc == Collecting {
      ReceivedNext(task, items, x, before, after);
    } else {
      assert (items + [x])[0] == items[0];
      assert OnItem(task, x) == (Streaming, task.acc) by { OnStream(task, x); }
    }
  }

  lemma OnStream(task: Task, x: Item)
    requires task.pc == Streaming
    ensures OnItem(task, x) == (Streaming, task.acc)
  {}

  lemma ReceivedFirst(task: Task, x: Item, after: bool)
    requires task.pc == Waiting
    ensures Received(task.(pc := OnItem(task, x).0, acc := OnItem(task, x).1), [x], after)
  {
    NoItems(Limit(task));
    TakeOne([], x, Limit(task));
    assert [] + [x] == [x];
    hide IsVerdict, Acceptable, Concat;
  }

  lemma ReceivedNext(task: Task, items: seq<Item>, x: Item, before: bool, after: bool)
    requires Received(task, items, before) && task.pc == Collecting
    ensures Received(task.(pc := OnItem(task, x).0, acc := OnItem(task, x).1), items + [x], after)
  {
    TakeOne(items, x, Limit(task));
    assert (items + [x])[0] == items[0];
    hide IsVerdict, Acceptable, Concat;
  }

  lemma NoItems(limit: Option<nat>)
    ensures Acceptable([], limit) && Concat([]) == []
  {}

  lemma ReceivedClose(task: Task, items: seq<Item>, before: bool)
    requires Received(task, items, before) && (task.pc == Waiting || task.pc == Collecting || task.pc == Streaming)
    ensures Received(task.(pc := OnClose(task)), items, true)
  {}

  lemma TaskReceive(r: Requests, t: TaskId)
    requires RegistryOk(r) && TaskOk(r, t) && CanReceive(r, t) && ChannelOk(r, r.tasks[t].rx.value)
    requires forall x :: ResponderOk(r, x)
    ensures TaskOk(AfterReceive(r, t), t)
  {
    var task := r.tasks[t];
    var ch := task.rx.value;
    var c, s := r.channels[ch], AfterReceive(r, t);
    DeliveredMeansTaken(r, ch);
    hide RegistryOk, ChannelOk;
    if c.queue == [] {
      assert c.sender.TakenBy? ==> ResponderOk(r, c.sender.x);
      assert Drained(s, ch);
      ReceivedClose(task, c.delivered, Drained(r, ch));
    } else {
      ReceivedItem(task, c.delivered, c.queue[0], Drained(r, ch), Drained(s, ch));
    }
    hide Received, Drained;
  }

  lemma MovedOver(c: Channel, open: bool, t: TaskId)
    requires c.owner == t && (open ==> c.rxOpen)
    ensures c.queue != [] ==>
      SameOrOwn(c, c.(queue := c.queue[1..], delivered := c.delivered + [c.queue[0]], rxOpen := open), t)
    ensures SameOrOwn(c, c.(rxOpen := open), t)
  {
    if c.queue != [] {
      assert c.queue == [c.queue[0]] + c.queue[1..];
      assert c.delivered + [c.queue[0]] + c.queue[1..] == c.delivered + c.queue;
    }
  }

  lemma OwnReceive(r: Requests, t: TaskId)
    requires TaskOk(r, t) && CanReceive(r, t)
    ensures OwnBusiness(r, AfterReceive(r, t), t)
  {
    var ch := r.tasks[t].rx.value;
    MovedOver(r.channels[ch], AfterReceive(r, t).channels[ch].rxOpen, t);
    hide Received, OnItem, OnClose, SameOrOwn;
    assert forall c :: SameOrOwn(c, c, t) by { SameIsFine(t); }
  }

  lemma SameIsFine(t: TaskId)
    ensures forall c :: SameOrOwn(c, c, t)
  {}

  lemma SoundReceive(r: Requests, t: TaskId)
    requires Sound(r) && CanReceive(r, t)
    ensures Sound(AfterReceive(r, t))
  {
    assert TaskOk(r, t) && ChannelOk(r, r.tasks[t].rx.value);
    TaskReceive(r, t);
    OwnReceive(r, t);
    hide Sound, TaskOk, AfterReceive, OwnBusiness;
    SoundOwn(r, AfterReceive(r, t), t);
  }
}
