/** What can always be brought about: how a run goes on so that a client gets its answer. */
module Service {
  import opened Common
  import opened Collector
  import opened Broker
  import opened Runs
  import A = Agents
  import H = Handlers
  import R = Requests
  import RS = RequestSafety
  import D = Delivery
  import O = Outcomes
  import Codec
  import Decimals

  // ---------------------------------------------------------------------------------------------
  // Ways from one state to another
  // ---------------------------------------------------------------------------------------------

  ghost predicate IsPath(path: seq<State>) {
    path != [] && forall i :: 0 < i < |path| ==> Next(path[i - 1], path[i])
  }

  ghost predicate Leads(s: State, b: State) {
    exists path :: IsPath(path) && path[0] == s && path[|path| - 1] == b
  }

  lemma Stays(s: State)
    ensures Leads(s, s)
  {
    assert IsPath([s]);
  }

  lemma Goes(s: State, b: State, step: Step)
    requires Leads(s, b) && Enabled(b, step)
    ensures Leads(s, Apply(b, step))
  {
    hide Apply, Enabled;
    var path :| IsPath(path) && path[0] == s && path[|path| - 1] == b;
    assert Next(b, Apply(b, step));
    var longer := path + [Apply(b, step)];
    assert IsPath(longer) by { hide Next; }
    assert longer[0] == s;
  }

  lemma GoesOn(s: State, b: State, d: State)
    requires Leads(s, b) && Leads(b, d)
    ensures Leads(s, d)
  {
    hide Next;
    var p :| IsPath(p) && p[0] == s && p[|p| - 1] == b;
    var q :| IsPath(q) && q[0] == b && q[|q| - 1] == d;
    var longer := p + q[1..];
    forall i | 0 < i < |longer| ensures Next(longer[i - 1], longer[i]) {
      if i >= |p| {
        assert longer[i] == q[i - |p| + 1] && longer[i - 1] == q[i - |p|];
      }
    }
    assert IsPath(longer);
  }

  lemma KeepsInv(s: State, b: State)
    requires Leads(s, b) && Inv(s)
    ensures Inv(b)
  {
    hide Inv, Next;
    var path :| IsPath(path) && path[0] == s && path[|path| - 1] == b;
    InvAlong(path, |path| - 1);
  }

  lemma {:induction false} InvAlong(path: seq<State>, i: nat)
    requires IsPath(path) && Inv(path[0]) && i < |path|
    ensures Inv(path[i])
  {
    hide Inv, Next;
    if i > 0 {
      InvAlong(path, i - 1);
      InvNext(path[i - 1], path[i]);
    }
  }

  /** Any run can be prolonged to where its last state leads. */
  lemma Prolonged(run: seq<State>, b: State) returns (longer: seq<State>)
    requires IsRun(run) && Leads(run[|run| - 1], b)
    ensures IsRun(longer) && run <= longer && longer[|longer| - 1] == b
  {
    hide Next, Init;
    var q :| IsPath(q) && q[0] == run[|run| - 1] && q[|q| - 1] == b;
    longer := run + q[1..];
    forall i | 0 < i < |longer| ensures Next(longer[i - 1], longer[i]) {
      if i >= |run| {
        assert longer[i] == q[i - |run| + 1] && longer[i - 1] == q[i - |run|];
      }
    }
  }

  // ---------------------------------------------------------------------------------------------
  // Asking
  // ---------------------------------------------------------------------------------------------

  /** The agent is logged in, its websocket lives, and its queue has room for `n` messages more. */
  ghost predicate Reachable(s: State, k: ServerId, n: nat) {
    && k in s.a.servers && s.a.servers[k] in s.a.conns && s.a.conns[s.a.servers[k]].phase == A.Live
    && |s.a.conns[s.a.servers[k]].h.queue| + n <= 100
  }

  ghost function QueueOf(s: State, k: ServerId): seq<H.InternalComm>
    requires Reachable(s, k, 0)
  {
    s.a.conns[s.a.servers[k]].h.queue
  }

  /** A client arrives: it goes on exactly if the agent it asks for is logged in. */
  lemma Arrives(s: State, t: TaskId, kind: R.Kind, k: ServerId, file: nat) returns (b: State)
    requires t !in s.r.tasks
    ensures Leads(s, b) && b.a == s.a && b.base == s.base && b.fits == s.fits
    ensures b.r == s.r.(tasks := s.r.tasks[t :=
      R.Task(kind, k, file, false, 0, None, 0, if k in s.a.servers then R.Online else R.NotOnline, [], [], 0)])
  {
    hide Leads;
    Stays(s);
    Goes(s, s, Begin(t, kind, k, file));
    b := Apply(s, Begin(t, kind, k, file));
    Goes(s, b, CheckOnline(t));
    b := Apply(b, CheckOnline(t));
  }

  /** The request is registered, and the agent's sender looked up. */
  lemma Registers(s: State, t: TaskId, rid: RequestId, ch: ChannelId) returns (b: State)
    requires R.CanOpen(s.r, t, rid, ch) && s.r.tasks[t].agent in s.a.servers
    ensures Leads(s, b) && b.a == s.a && b.base == s.base && b.fits == s.fits
    ensures b.r == s.r.(
      tasks := s.r.tasks[t := s.r.tasks[t].(pc := R.Routed, rid := rid, rx := Some(ch),
                                            ws := s.a.servers[s.r.tasks[t].agent])],
      channels := s.r.channels[ch := R.Channel(rid, t, [], [], true, R.Registered)],
      registry := s.r.registry[rid := ch], used := s.r.used + {rid})
  {
    Stays(s);
    Goes(s, s, OpenRequest(t, rid, ch));
    b := Apply(s, OpenRequest(t, rid, ch));
    hide Leads;
    Goes(s, b, LookUp(t));
    b := Apply(b, LookUp(t));
  }

  /** The agent is told. */
  lemma Tells(s: State, t: TaskId) returns (b: State)
    requires Inv(s) && R.At(s.r, t, R.Routed) && Reachable(s, s.r.tasks[t].agent, 1)
    requires s.a.servers[s.r.tasks[t].agent] == s.r.tasks[t].ws
    ensures Leads(s, b) && b.base == s.base && b.fits == s.fits
    ensures b.r == s.r.(tasks := s.r.tasks[t := s.r.tasks[t].(pc := R.Waiting)])
    ensures Queued(s, b, s.r.tasks[t].agent)
    ensures D.AsksFor(LastTold(s, b, s.r.tasks[t].agent), b.r.tasks[t], s.base)
  {
    Stays(s);
    D.AskNamesItsRequest(s, t);
    hide Inv, Leads, D.AsksFor;
    Goes(s, s, Ask(t));
    b := Apply(s, Ask(t));
  }

  /** Nothing but one message more waits for the agent. */
  ghost predicate Queued(s: State, b: State, k: ServerId) {
    && Reachable(s, k, 1) && Reachable(b, k, 0) && b.a.servers == s.a.servers
    && QueueOf(b, k) != [] && QueueOf(b, k)[..|QueueOf(b, k)| - 1] == QueueOf(s, k)
    && QueueOf(b, k)[|QueueOf(b, k)| - 1].SendMessage?
  }

  ghost function LastTold(s: State, b: State, k: ServerId): H.Message
    requires Queued(s, b, k)
  {
    QueueOf(b, k)[|QueueOf(b, k)| - 1].msg
  }

  // ---------------------------------------------------------------------------------------------
  // Answering
  // ---------------------------------------------------------------------------------------------

  /** What was sent has been read, and the responder `x` is about to send more to task `t`. */
  ghost predicate Serving(r: R.Requests, t: TaskId, x: ResponderId) {
    && O.HasChannel(r, t) && x in r.responders && r.lock == Some(x)
    && var y, c := r.responders[x], O.ChannelOf(r, t);
      && y.pc == R.Sending(r.tasks[t].rx.value) && y.sent <= |R.Payload(y.reply)|
      && c.rxOpen && c.queue == [] && c.delivered == R.Payload(y.reply)[..y.sent] && c.sender == R.TakenBy(x)
  }

  /** Everything but this task, its channel and this responder is as it was. */
  ghost predicate Beside(s: State, b: State, t: TaskId, x: ResponderId) {
    && b.a == s.a && b.base == s.base && b.fits == s.fits && b.r.registry == s.r.registry && b.r.used == s.r.used
    && O.HasChannel(s.r, t) && O.HasChannel(b.r, t) && O.SameRequest(s.r.tasks[t], b.r.tasks[t])
    && b.r.tasks == s.r.tasks[t := b.r.tasks[t]]
    && b.r.channels == s.r.channels[s.r.tasks[t].rx.value := O.ChannelOf(b.r, t)]
    && x in b.r.responders && x in s.r.responders && b.r.responders == s.r.responders[x := b.r.responders[x]]
    && b.r.responders[x].reply == s.r.responders[x].reply
  }

  /** A responder comes and takes the request. */
  lemma IsTaken(s: State, t: TaskId, x: ResponderId, reply: R.Reply) returns (b: State)
    requires O.HasChannel(s.r, t) && s.r.lock == None && x !in s.r.responders
    requires s.r.tasks[t].rid in s.r.registry && s.r.registry[s.r.tasks[t].rid] == s.r.tasks[t].rx.value
    requires O.ChannelOf(s.r, t).rxOpen && O.ChannelOf(s.r, t).queue == O.ChannelOf(s.r, t).delivered == []
    ensures Leads(s, b) && b.a == s.a && b.base == s.base && b.fits == s.fits
    ensures b.r.tasks == s.r.tasks && b.r.registry == s.r.registry - {s.r.tasks[t].rid} && b.r.used == s.r.used
    ensures Serving(b.r, t, x) && b.r.responders[x].reply == reply && b.r.responders[x].sent == 0
    ensures b.r.channels.Keys == s.r.channels.Keys && b.r.responders.Keys == s.r.responders.Keys + {x}
  {
    Stays(s);
    hide R.Payload;
    var rid := s.r.tasks[t].rid;
    Goes(s, s, Arrive(x, rid, reply));
    b := Apply(s, Arrive(x, rid, reply));
    hide Leads;
    Goes(s, b, Take(x));
    b := Apply(b, Take(x));
  }

  /** Whoever comes for a request that is not registered gets nothing, sends nothing and changes nothing. */
  lemma FindsNothing(s: State, x: ResponderId, rid: RequestId, reply: R.Reply) returns (b: State)
    requires x !in s.r.responders && s.r.lock == None && rid !in s.r.registry
    ensures Leads(s, b) && b.a == s.a && b.readers == s.readers
    ensures b.r == s.r.(responders := s.r.responders[x := R.Responder(rid, reply, R.Done(R.NoSuchRequest), 0, None)])
  {
    Stays(s);
    hide R.Payload;
    Goes(s, s, Arrive(x, rid, reply));
    b := Apply(s, Arrive(x, rid, reply));
    hide Leads;
    Goes(s, b, Take(x));
    b := Apply(b, Take(x));
  }

  lemma Sends(s: State, t: TaskId, x: ResponderId) returns (b: State)
    requires Serving(s.r, t, x) && s.r.responders[x].sent < |R.Payload(s.r.responders[x].reply)|
    ensures Leads(s, b) && Beside(s, b, t, x) && b.r.lock == Some(x)
    ensures b.r.tasks == s.r.tasks && b.r.responders[x] == s.r.responders[x].(sent := s.r.responders[x].sent + 1)
    ensures O.ChannelOf(b.r, t) ==
      O.ChannelOf(s.r, t).(queue := [R.Payload(s.r.responders[x].reply)[s.r.responders[x].sent]])
  {
    hide R.Payload;
    Stays(s);
    hide Leads;
    Goes(s, s, Send(x));
    b := Apply(s, Send(x));
  }

  /** Reading concerns one task and its channel alone. */
  lemma ReadingIsLocal(r: R.Requests, t: TaskId)
    requires R.CanReceive(r, t)
    ensures var b := R.AfterReceive(r, t);
      && O.HasChannel(r, t) && O.HasChannel(b, t) && b.tasks == r.tasks[t := b.tasks[t]]
      && b.channels == r.channels[r.tasks[t].rx.value := O.ChannelOf(b, t)]
      && b.registry == r.registry && b.responders == r.responders && b.used == r.used && b.lock == r.lock
      && (O.Reads(b.tasks[t].pc) && O.ChannelOf(r, t).rxOpen ==> O.ChannelOf(b, t).rxOpen)
  {
    hide R.OnItem, R.OnClose;
  }

  lemma Receives(s: State, t: TaskId)
    requires R.CanReceive(s.r, t)
    ensures Enabled(s, Receive(t))
    ensures var b := Apply(s, Receive(t));
      b.r == R.AfterReceive(s.r, t) && b.a == s.a && b.base == s.base && b.fits == s.fits
  {
    hide R.AfterReceive, R.CanReceive;
  }

  lemma Reads(s: State, t: TaskId, x: ResponderId) returns (b: State)
    requires Inv(s) && R.CanReceive(s.r, t) && x in s.r.responders
    ensures Leads(s, b) && Beside(s, b, t, x) && b.r == R.AfterReceive(s.r, t)
  {
    hide Leads, Inv, O.ItemLeads, O.EndLeads, R.AfterReceive, R.CanReceive, Apply, Enabled;
    Stays(s);
    Receives(s, t);
    ReadingIsLocal(s.r, t);
    assert RS.Sound(s.r) by { SoundHere(s); }
    O.ReceiveLeads(s.r, t);
    Goes(s, s, Receive(t));
    b := Apply(s, Receive(t));
  }

  lemma SoundHere(s: State)
    requires Inv(s)
    ensures RS.Sound(s.r)
  {}

  ghost function PayloadOf(r: R.Requests, x: ResponderId): seq<Item>
    requires x in r.responders
  {
    R.Payload(r.responders[x].reply)
  }

  lemma BesideTwice(s: State, m: State, b: State, t: TaskId, x: ResponderId)
    requires Beside(s, m, t, x) && Beside(m, b, t, x)
    ensures Beside(s, b, t, x)
  {}

  /** The item that waits is read. */
  lemma ReadsItem(s: State, t: TaskId, x: ResponderId) returns (b: State)
    requires Inv(s) && R.CanReceive(s.r, t) && x in s.r.responders && O.ChannelOf(s.r, t).queue != []
    ensures Leads(s, b) && Beside(s, b, t, x) && b.r.responders == s.r.responders && b.r.lock == s.r.lock
    ensures var c, d := O.ChannelOf(s.r, t), O.ChannelOf(b.r, t);
      && d.queue == c.queue[1..] && d.delivered == c.delivered + [c.queue[0]] && d.sender == c.sender
      && O.ItemLeads(s.r.tasks[t], c.delivered, c.queue[0], b.r.tasks[t])
      && (O.Reads(b.r.tasks[t].pc) && c.rxOpen ==> d.rxOpen)
  {
    b := Reads(s, t, x);
    ReadingIsLocal(s.r, t);
    O.ReceiveLeads(s.r, t);
  }

  /** One more item is sent and read. */
  lemma Turn(s: State, t: TaskId, x: ResponderId) returns (b: State)
    requires Inv(s) && Serving(s.r, t, x) && O.Reads(s.r.tasks[t].pc)
    requires s.r.responders[x].sent < |PayloadOf(s.r, x)|
    ensures Leads(s, b) && Inv(b) && Beside(s, b, t, x) && b.r.lock == Some(x)
    ensures b.r.responders[x] == s.r.responders[x].(sent := s.r.responders[x].sent + 1)
    ensures var p, n := PayloadOf(s.r, x), s.r.responders[x].sent;
      && O.ItemLeads(s.r.tasks[t], p[..n], p[n], b.r.tasks[t]) && O.ChannelOf(b.r, t).delivered == p[..n + 1]
    ensures O.Reads(b.r.tasks[t].pc) ==> Serving(b.r, t, x)
  {
    hide Leads, Inv, R.Payload, O.ItemLeads, R.CanReceive, Beside;
    var m := Sends(s, t, x);
    KeepsInv(s, m);
    HasOne(s, m, t, x);
    b := ReadsItem(m, t, x);
    GoesOn(s, m, b);
    KeepsInv(m, b);
    BesideTwice(s, m, b, t, x);
    var p, n := PayloadOf(s.r, x), s.r.responders[x].sent;
    assert p[..n] + [p[n]] == p[..n + 1];
    SameTask(s, b, t, x);
  }

  lemma HasOne(s: State, m: State, t: TaskId, x: ResponderId)
    requires Beside(s, m, t, x) && O.Reads(m.r.tasks[t].pc) && O.ChannelOf(m.r, t).queue != []
    ensures R.CanReceive(m.r, t) && x in m.r.responders
  {}

  lemma SameTask(s: State, b: State, t: TaskId, x: ResponderId)
    requires Beside(s, b, t, x)
    ensures b.r.tasks[t].rx == s.r.tasks[t].rx
  {}

  /** All has been sent, and the end is read. */
  lemma Ends(s: State, t: TaskId, x: ResponderId) returns (b: State)
    requires Inv(s) && Serving(s.r, t, x) && O.Reads(s.r.tasks[t].pc)
    requires s.r.responders[x].sent == |PayloadOf(s.r, x)|
    ensures Leads(s, b) && Beside(s, b, t, x) && b.r.lock == None
    ensures b.r.responders[x].pc == R.Done(R.Completed) && O.ChannelOf(b.r, t).delivered == PayloadOf(s.r, x)
    ensures O.EndLeads(s.r.tasks[t], PayloadOf(s.r, x), b.r.tasks[t])
  {
    var m := Finishes(s, t, x);
    KeepsInv(s, m);
    b := Reads(m, t, x);
    GoesOn(s, m, b);
    ReadingIsLocal(m.r, t);
    O.ReceiveLeads(m.r, t);
    hide Leads, Inv, R.Payload, R.AfterReceive, O.ItemLeads, O.EndLeads, RS.Sound;
    var p := PayloadOf(s.r, x);
    assert p[..|p|] == p;
  }

  lemma Finishes(s: State, t: TaskId, x: ResponderId) returns (b: State)
    requires Serving(s.r, t, x) && O.Reads(s.r.tasks[t].pc) && s.r.responders[x].sent == |PayloadOf(s.r, x)|
    ensures Leads(s, b) && Beside(s, b, t, x) && b.r.lock == None && b.r.tasks == s.r.tasks
    ensures b.r.channels == s.r.channels && R.CanReceive(b.r, t)
    ensures b.r.responders[x] == s.r.responders[x].(pc := R.Done(R.Completed))
  {
    Stays(s);
    hide Leads, R.Payload;
    Goes(s, s, Finish(x));
    b := Apply(s, Finish(x));
  }

  /** The responder goes away, as an agent may at any time. */
  lemma GoesAway(s: State, t: TaskId, x: ResponderId) returns (b: State)
    requires O.HasChannel(s.r, t) && x in s.r.responders && !s.r.responders[x].pc.Done? && s.r.lock == Some(x)
    ensures Leads(s, b) && Beside(s, b, t, x) && b.r.lock == None && b.r.tasks == s.r.tasks
    ensures b.r.channels == s.r.channels
  {
    Stays(s);
    hide Leads;
    Goes(s, s, CancelResponder(x));
    b := Apply(s, CancelResponder(x));
  }

  /** Where serving `payload` to a task that waits leaves the task: with the answer for exactly that
      payload, and with all of it if the task has seen the end. */
  ghost predicate ServedWith(task: R.Task, payload: seq<Item>, r: R.Requests, t: TaskId) {
    && O.HasChannel(r, t) && O.Answered(task, payload, r.tasks[t]) && !O.Reads(r.tasks[t].pc)
    && O.ChannelOf(r, t).delivered <= payload
    && (D.SawEnd(r.tasks[t].pc) ==> O.ChannelOf(r, t).delivered == payload)
  }

  lemma {:induction false} ServesOn(s: State, t: TaskId, x: ResponderId) returns (b: State)
    requires Inv(s) && Serving(s.r, t, x) && O.Reads(s.r.tasks[t].pc)
    ensures Leads(s, b) && Beside(s, b, t, x) && b.r.lock == None
    ensures ServedWith(s.r.tasks[t], PayloadOf(s.r, x), b.r, t)
    decreases |PayloadOf(s.r, x)| - s.r.responders[x].sent
  {
    hide Leads, Inv, R.Payload, O.ItemLeads, O.EndLeads, ServedWith, O.SoFar;
    var p, n := PayloadOf(s.r, x), s.r.responders[x].sent;
    SoFarServed(s, t, x);
    if n == |p| {
      b := Ends(s, t, x);
      assert p[..n] == p;
      AllServed(s.r.tasks[t], p, b.r, t);
    } else {
      var m := Turn(s, t, x);
      if O.Reads(m.r.tasks[t].pc) {
        b := ServesOn(m, t, x);
        ServedBefore(s.r.tasks[t], m.r.tasks[t], p, b.r, t);
      } else {
        b := GoesAway(m, t, x);
        CutShort(s.r.tasks[t], p, n, b.r, t);
      }
      GoesOn(s, m, b);
      BesideTwice(s, m, b, t, x);
    }
  }

  lemma SoFarServed(s: State, t: TaskId, x: ResponderId)
    requires Inv(s) && Serving(s.r, t, x) && O.Reads(s.r.tasks[t].pc)
    ensures O.SoFar(s.r.tasks[t], PayloadOf(s.r, x)[..s.r.responders[x].sent])
  {
    assert RS.TaskOk(s.r, t);
    hide Inv, R.Payload, RS.TaskOk;
    O.KnownSoFar(s.r, t);
  }

  lemma AllServed(task: R.Task, p: seq<Item>, r: R.Requests, t: TaskId)
    requires O.Reads(task.pc) && O.SoFar(task, p) && O.HasChannel(r, t) && O.EndLeads(task, p, r.tasks[t])
    requires O.ChannelOf(r, t).delivered == p
    ensures ServedWith(task, p, r, t)
  {
    O.EndAnswers(task, p, r.tasks[t]);
    hide O.SoFar, O.Answered, IsVerdict, Concat, O.HasChannel, O.ChannelOf;
  }

  lemma ServedBefore(task: R.Task, next: R.Task, p: seq<Item>, r: R.Requests, t: TaskId)
    requires O.SameRequest(task, next) && ServedWith(next, p, r, t)
    ensures ServedWith(task, p, r, t)
  {
    O.AnsweredFor(task, next, p, r.tasks[t]);
    hide O.Answered, O.SameRequest;
  }

  lemma CutShort(task: R.Task, p: seq<Item>, n: nat, r: R.Requests, t: TaskId)
    requires n < |p| && O.Reads(task.pc) && O.SoFar(task, p[..n]) && O.HasChannel(r, t) && !O.Reads(r.tasks[t].pc)
    requires O.ItemLeads(task, p[..n], p[n], r.tasks[t]) && O.ChannelOf(r, t).delivered == p[..n + 1]
    ensures ServedWith(task, p, r, t)
  {
    assert p[..n] + [p[n]] + p[n + 1..] == p;
    O.ItemAnswers(task, p[..n], p[n], p[n + 1..], r.tasks[t]);
    hide O.SoFar, O.Answered, IsVerdict, Concat, O.HasChannel, O.ChannelOf;
  }

  // ---------------------------------------------------------------------------------------------
  // Complaining
  // ---------------------------------------------------------------------------------------------

  /** What the agent is told when a request ends like this. */
  function Notice(pc: R.TaskPc): seq<H.InternalComm> {
    if pc == R.Exited(Status(404)) || pc == R.Exited(Status(408)) then
      [H.SendMessage(H.UploadFailed("failed to upload in time"))]
    else if pc == R.Exited(Status(413)) then [H.SendMessage(H.UploadFailed("file too large"))]
    else []
  }

  /** The request is over with this outcome, and the agent knows about it. */
  ghost predicate Concluded(s: State, b: State, t: TaskId, pc: R.TaskPc) {
    && t in s.r.tasks && t in b.r.tasks && b.r.tasks[t] == s.r.tasks[t].(pc := pc)
    && b.r.registry == s.r.registry && b.r.responders == s.r.responders && b.r.lock == None
    && b.r.used == s.r.used && b.r.channels.Keys == s.r.channels.Keys && b.base == s.base && b.fits == s.fits
    && O.HasChannel(b.r, t) && Reachable(s, s.r.tasks[t].agent, 0) && Reachable(b, s.r.tasks[t].agent, 0)
    && b.a.servers == s.a.servers
    && QueueOf(b, s.r.tasks[t].agent) == QueueOf(s, s.r.tasks[t].agent) + Notice(pc)
  }

  lemma Fails(s: State, t: TaskId) returns (b: State)
    requires O.HasChannel(s.r, t) && s.r.tasks[t].pc.Failing? && s.r.lock == None
    requires Reachable(s, s.r.tasks[t].agent, 1) && s.a.servers[s.r.tasks[t].agent] == s.r.tasks[t].ws
    requires s.r.tasks[t].rid !in s.r.registry
    requires s.r.tasks[t].pc.code == 404 || s.r.tasks[t].pc.code == 408
    ensures Leads(s, b) && Concluded(s, b, t, R.Exited(Status(s.r.tasks[t].pc.code)))
  {
    var m := Withdraws(s, t);
    b := Notifies(m, t);
    GoesOn(s, m, b);
  }

  lemma Withdraws(s: State, t: TaskId) returns (b: State)
    requires O.HasChannel(s.r, t) && s.r.tasks[t].pc.Failing? && s.r.lock == None && s.r.tasks[t].rid !in s.r.registry
    ensures Leads(s, b) && b.a == s.a && b.base == s.base && b.fits == s.fits
    ensures b.r == s.r.(tasks := s.r.tasks[t := s.r.tasks[t].(pc := R.Failed(s.r.tasks[t].pc.code))])
  {
    Stays(s);
    hide Leads;
    Goes(s, s, Withdraw(t));
    b := Apply(s, Withdraw(t));
  }

  lemma Notifies(s: State, t: TaskId) returns (b: State)
    requires O.HasChannel(s.r, t) && s.r.tasks[t].pc.Failed? && s.r.lock == None
    requires Reachable(s, s.r.tasks[t].agent, 1) && s.a.servers[s.r.tasks[t].agent] == s.r.tasks[t].ws
    requires s.r.tasks[t].pc.code == 404 || s.r.tasks[t].pc.code == 408
    ensures Leads(s, b) && Concluded(s, b, t, R.Exited(Status(s.r.tasks[t].pc.code)))
  {
    Stays(s);
    hide Leads;
    Goes(s, s, Notify(t));
    b := Apply(s, Notify(t));
  }

  lemma Rejects(s: State, t: TaskId) returns (b: State)
    requires R.At(s.r, t, R.TooLarge) && O.HasChannel(s.r, t) && s.r.lock == None
    requires Reachable(s, s.r.tasks[t].agent, 1) && s.a.servers[s.r.tasks[t].agent] == s.r.tasks[t].ws
    ensures Leads(s, b) && Concluded(s, b, t, R.Exited(Status(413)))
  {
    Stays(s);
    hide Leads;
    Goes(s, s, Reject(t));
    b := Apply(s, Reject(t));
  }

  // ---------------------------------------------------------------------------------------------
  // From question to answer
  // ---------------------------------------------------------------------------------------------

  /** The closed form of what a payload is answered with, for a request like `task`. */
  ghost predicate AnswerFor(task: R.Task, p: seq<Item>, now: R.Task) {
    if p == [] then now.pc == R.Exited(Status(404))
    else if p[0].Broken? then now.pc == R.Exited(Status(408))
    else if !O.IsCollected(task) then now.pc == R.Ended
    else if now.pc == R.Parsing then task.kind == R.ForDownload && IsVerdict(p, None, Body(now.acc))
    else now.pc.Exited? && (task.kind == R.ForDownload ==> now.pc == R.Exited(Status(500)))
         && IsVerdict(p, O.LimitOf(task), now.pc.outcome)
  }

  /** The request of `t` has been answered, and all that is left of it is what its agent was told. */
  ghost predicate Answered(s: State, b: State, t: TaskId, p: seq<Item>) {
    && t in s.r.tasks && O.HasChannel(b.r, t) && AnswerFor(s.r.tasks[t], p, b.r.tasks[t])
    && b.r.tasks[t].kind == s.r.tasks[t].kind && b.r.tasks[t].agent == s.r.tasks[t].agent
    && b.r.tasks[t].second == s.r.tasks[t].second && b.r.tasks[t].file == s.r.tasks[t].file
    && b.r.tasks[t].fileName == s.r.tasks[t].fileName && b.r.tasks[t].fileSize == s.r.tasks[t].fileSize
    && (D.SawEnd(b.r.tasks[t].pc) ==> O.ChannelOf(b.r, t).delivered == p)
    && b.r.registry == s.r.registry && b.r.lock == None && b.base == s.base && b.fits == s.fits
    && b.a.servers == s.a.servers
  }

  /** The agent was asked, and told how it ended if that was badly. */
  ghost predicate TalkedTo(s: State, b: State, t: TaskId) {
    && t in b.r.tasks
    && var k := b.r.tasks[t].agent;
      && Reachable(s, k, 0) && Reachable(b, k, 0)
      && exists m :: QueueOf(b, k) == QueueOf(s, k) + [H.SendMessage(m)] + Notice(b.r.tasks[t].pc)
                     && D.AsksFor(m, b.r.tasks[t], s.base)
  }

  /** Just these names have been used up. */
  ghost predicate Drawn(s: State, b: State, rid: RequestId, ch: ChannelId, x: ResponderId) {
    && b.r.used == s.r.used + {rid} && b.r.channels.Keys == s.r.channels.Keys + {ch}
    && b.r.responders.Keys == s.r.responders.Keys + {x}
  }

  /** Registered and asked for: the task waits. */
  lemma Asks(s: State, t: TaskId, rid: RequestId, ch: ChannelId) returns (b: State)
    requires Inv(s) && R.CanOpen(s.r, t, rid, ch) && Reachable(s, s.r.tasks[t].agent, 1)
    ensures Leads(s, b) && b.base == s.base && b.fits == s.fits && Queued(s, b, s.r.tasks[t].agent)
    ensures b.r == s.r.(
      tasks := s.r.tasks[t := s.r.tasks[t].(pc := R.Waiting, rid := rid, rx := Some(ch),
                                            ws := s.a.servers[s.r.tasks[t].agent])],
      channels := s.r.channels[ch := R.Channel(rid, t, [], [], true, R.Registered)],
      registry := s.r.registry[rid := ch], used := s.r.used + {rid})
    ensures D.AsksFor(LastTold(s, b, s.r.tasks[t].agent), b.r.tasks[t], s.base)
  {
    hide Leads, Inv, D.AsksFor;
    var i := Registers(s, t, rid, ch);
    KeepsInv(s, i);
    b := Tells(i, t);
    GoesOn(s, i, b);
    SameQueues(s, i, s.r.tasks[t].agent);
  }

  lemma SameQueues(s: State, i: State, k: ServerId)
    requires i.a == s.a
    ensures Reachable(i, k, 1) == Reachable(s, k, 1) && (Reachable(s, k, 0) ==> QueueOf(i, k) == QueueOf(s, k))
  {}

  /** ... and a responder is ready to serve it. */
  lemma Waits(s: State, t: TaskId, rid: RequestId, ch: ChannelId, x: ResponderId, reply: R.Reply) returns (b: State)
    requires Inv(s) && R.CanOpen(s.r, t, rid, ch) && Reachable(s, s.r.tasks[t].agent, 1) && x !in s.r.responders
    ensures Leads(s, b) && Inv(b) && Serving(b.r, t, x) && Queued(s, b, s.r.tasks[t].agent)
    ensures b.r.responders[x].reply == reply && b.r.responders[x].sent == 0
    ensures R.At(b.r, t, R.Waiting) && b.r.tasks[t] ==
      s.r.tasks[t].(pc := R.Waiting, rid := rid, rx := Some(ch), ws := s.a.servers[s.r.tasks[t].agent])
    ensures b.r.registry == s.r.registry && b.base == s.base && b.fits == s.fits
    ensures Drawn(s, b, rid, ch, x)
    ensures D.AsksFor(LastTold(s, b, s.r.tasks[t].agent), b.r.tasks[t], s.base)
  {
    hide Leads, Inv, D.AsksFor, R.Payload, Serving, Queued, LastTold;
    UnusedIsUnregistered(s, rid);
    var j := Asks(s, t, rid, ch);
    b := IsTaken(j, t, x, reply);
    GoesOn(s, j, b);
    KeepsInv(s, b);
    assert s.r.registry[rid := ch] - {rid} == s.r.registry;
    SameTold(s, j, b, s.r.tasks[t].agent);
  }

  lemma SameTold(s: State, j: State, b: State, k: ServerId)
    requires Queued(s, j, k) && b.a == j.a
    ensures Queued(s, b, k) && LastTold(s, b, k) == LastTold(s, j, k)
  {}

  lemma UnusedIsUnregistered(s: State, rid: RequestId)
    requires Inv(s) && rid !in s.r.used
    ensures rid !in s.r.registry
  {
    assert RS.RegistryOk(s.r);
  }

  /** Where a request ends that has been served. */
  function EndOf(pc: R.TaskPc): R.TaskPc {
    match pc
    case Failing(code) => R.Exited(Status(code))
    case TooLarge => R.Exited(Status(413))
    case _ => pc
  }

  lemma EndAnswers(task: R.Task, p: seq<Item>, now: R.Task)
    requires O.Answered(task, p, now)
    ensures AnswerFor(task, p, now.(pc := EndOf(now.pc)))
    ensures now.pc.Failing? ==> now.pc.code == 404 || now.pc.code == 408
    ensures !now.pc.Failing? && now.pc != R.TooLarge ==> Notice(now.pc) == []
    ensures D.SawEnd(EndOf(now.pc)) ==> EndOf(now.pc) == now.pc
  {
    Limitless(p);
    hide IsVerdict;
  }

  lemma Concludes(s: State, t: TaskId) returns (b: State)
    requires O.HasChannel(s.r, t) && s.r.lock == None && s.r.tasks[t].rid !in s.r.registry
    requires Reachable(s, s.r.tasks[t].agent, 1) && s.a.servers[s.r.tasks[t].agent] == s.r.tasks[t].ws
    requires var pc := s.r.tasks[t].pc;
      if pc.Failing? then pc.code == 404 || pc.code == 408 else pc != R.TooLarge ==> Notice(pc) == []
    ensures Leads(s, b) && Concluded(s, b, t, EndOf(s.r.tasks[t].pc))
    ensures EndOf(s.r.tasks[t].pc) == s.r.tasks[t].pc ==> b == s
  {
    hide Leads, Concluded;
    if s.r.tasks[t].pc.Failing? {
      b := Fails(s, t);
    } else if s.r.tasks[t].pc == R.TooLarge {
      b := Rejects(s, t);
    } else {
      Stays(s);
      b := s;
      NoNotice(s, t);
    }
  }

  /** Without a limit nothing is too large. */
  lemma Limitless(p: seq<Item>)
    ensures !IsVerdict(p, None, Status(413))
  {
    hide Concat;
  }

  lemma NoNotice(s: State, t: TaskId)
    requires O.HasChannel(s.r, t) && s.r.lock == None && Reachable(s, s.r.tasks[t].agent, 0)
    requires Notice(s.r.tasks[t].pc) == []
    ensures Concluded(s, s, t, s.r.tasks[t].pc)
  {}

  lemma ConcludedTask(s: State, b: State, t: TaskId, pc: R.TaskPc)
    requires Concluded(s, b, t, pc)
    ensures t in s.r.tasks && t in b.r.tasks && b.r.tasks[t] == s.r.tasks[t].(pc := pc)
  {}

  /** What is known before the request ends. */
  lemma ServedState(s: State, m: State, n: State, t: TaskId, x: ResponderId, p: seq<Item>)
    requires t in s.r.tasks && Reachable(s, s.r.tasks[t].agent, 2) && Queued(s, m, s.r.tasks[t].agent)
    requires t in m.r.tasks && m.r.tasks[t].agent == s.r.tasks[t].agent
    requires m.r.tasks[t].ws == s.a.servers[s.r.tasks[t].agent]
    requires Beside(m, n, t, x) && ServedWith(m.r.tasks[t], p, n.r, t)
    ensures O.HasChannel(n.r, t) && n.a == m.a && n.r.registry == m.r.registry && n.r.used == m.r.used
    ensures O.SameRequest(m.r.tasks[t], n.r.tasks[t]) && O.Answered(m.r.tasks[t], p, n.r.tasks[t])
    ensures D.SawEnd(n.r.tasks[t].pc) ==> O.ChannelOf(n.r, t).delivered == p
    ensures n.r.channels.Keys == m.r.channels.Keys && n.r.responders.Keys == m.r.responders.Keys
    ensures n.base == m.base && n.fits == m.fits
    ensures Reachable(n, n.r.tasks[t].agent, 1) && n.a.servers[n.r.tasks[t].agent] == n.r.tasks[t].ws
  {
    hide O.Answered;
  }

  /** Whenever a task may ask an agent that is logged in, and a responder comes with any payload at all,
      the run can go on so that the task ends with the answer for that payload. */
  lemma RequestIsAnswered(s: State, t: TaskId, rid: RequestId, ch: ChannelId, x: ResponderId, reply: R.Reply)
    returns (b: State)
    requires Inv(s) && R.CanOpen(s.r, t, rid, ch) && Reachable(s, s.r.tasks[t].agent, 2) && x !in s.r.responders
    ensures Leads(s, b) && Inv(b) && Drawn(s, b, rid, ch, x)
    ensures Answered(s, b, t, R.Payload(reply)) && TalkedTo(s, b, t) && b.r.tasks[t].rid == rid
  {
    hide Leads, Inv, D.AsksFor, R.Payload, Serving, Queued, LastTold, ServedWith, Beside, Reachable, Concluded,
      AnswerFor, O.Answered, Answered, TalkedTo;
    UnusedIsUnregistered(s, rid);
    RoomForOne(s, s.r.tasks[t].agent);
    var m := Waits(s, t, rid, ch, x, reply);
    var n := ServesOn(m, t, x);
    GoesOn(s, m, n);
    ServedState(s, m, n, t, x, R.Payload(reply));
    EndAnswers(m.r.tasks[t], R.Payload(reply), n.r.tasks[t]);
    b := Concludes(n, t);
    GoesOn(s, n, b);
    KeepsInv(s, b);
    AllAnswered(s, m, n, b, t, R.Payload(reply));
    AllDrawn(s, n, b, t, rid, ch, x);
  }

  lemma RoomForOne(s: State, k: ServerId)
    requires Reachable(s, k, 2)
    ensures Reachable(s, k, 1)
  {}

  lemma AllDrawn(s: State, n: State, b: State, t: TaskId, rid: RequestId, ch: ChannelId, x: ResponderId)
    requires Drawn(s, n, rid, ch, x) && t in n.r.tasks && Concluded(n, b, t, EndOf(n.r.tasks[t].pc))
    ensures Drawn(s, b, rid, ch, x)
  {}

  lemma AllAnswered(s: State, m: State, n: State, b: State, t: TaskId, p: seq<Item>)
    requires t in s.r.tasks && t in m.r.tasks && O.HasChannel(n.r, t) && Queued(s, m, s.r.tasks[t].agent)
    requires m.r.tasks[t] == s.r.tasks[t].(pc := R.Waiting, rid := m.r.tasks[t].rid, rx := m.r.tasks[t].rx,
                                           ws := m.r.tasks[t].ws)
    requires D.AsksFor(LastTold(s, m, s.r.tasks[t].agent), m.r.tasks[t], s.base)
    requires n.a == m.a && O.SameRequest(m.r.tasks[t], n.r.tasks[t]) && n.r.registry == m.r.registry == s.r.registry
    requires D.SawEnd(n.r.tasks[t].pc) ==> O.ChannelOf(n.r, t).delivered == p
    requires n.base == m.base == s.base && n.fits == m.fits == s.fits
    requires Concluded(n, b, t, EndOf(n.r.tasks[t].pc)) && (EndOf(n.r.tasks[t].pc) == n.r.tasks[t].pc ==> b == n)
    requires AnswerFor(m.r.tasks[t], p, n.r.tasks[t].(pc := EndOf(n.r.tasks[t].pc)))
    requires D.SawEnd(EndOf(n.r.tasks[t].pc)) ==> EndOf(n.r.tasks[t].pc) == n.r.tasks[t].pc
    ensures Answered(s, b, t, p) && TalkedTo(s, b, t) && b.r.tasks[t].rid == m.r.tasks[t].rid
  {
    hide IsVerdict;
    var k, told := s.r.tasks[t].agent, LastTold(s, m, s.r.tasks[t].agent);
    assert QueueOf(m, k) == QueueOf(s, k) + [H.SendMessage(told)];
    assert QueueOf(b, k) == QueueOf(s, k) + [H.SendMessage(told)] + Notice(b.r.tasks[t].pc);
  }

  // ---------------------------------------------------------------------------------------------
  // Clients
  // ---------------------------------------------------------------------------------------------

  ghost predicate Fresh(s: State, rid: RequestId, ch: ChannelId, x: ResponderId) {
    rid !in s.r.used && ch !in s.r.channels && x !in s.r.responders
  }

  /** A client that asks for a status, or for metadata alone, or a second time for a file. */
  lemma ClientIsAnswered(run: seq<State>, t: TaskId, kind: R.Kind, k: ServerId, file: nat,
                         rid: RequestId, ch: ChannelId, x: ResponderId, reply: R.Reply)
    returns (longer: seq<State>)
    requires IsRun(run)
    requires var s := run[|run| - 1];
      t !in s.r.tasks && s.r.lock == None && Reachable(s, k, 2) && Fresh(s, rid, ch, x)
    ensures IsRun(longer) && run <= longer
    ensures var s, b := run[|run| - 1], longer[|longer| - 1];
      && t in b.r.tasks && b.r.tasks[t].kind == kind && b.r.tasks[t].agent == k && b.r.tasks[t].file == file
      && AnswerFor(b.r.tasks[t], R.Payload(reply), b.r.tasks[t]) && TalkedTo(s, b, t)
      && (D.SawEnd(b.r.tasks[t].pc) ==>
            O.HasChannel(b.r, t) && O.ChannelOf(b.r, t).delivered == R.Payload(reply))
      && b.r.registry == s.r.registry && b.r.lock == None
  {
    hide Next, Init, Leads, Inv, R.Payload, TalkedTo, AnswerFor, D.SawEnd;
    var s := run[|run| - 1];
    InvHolds(run, |run| - 1);
    var m := Arrives(s, t, kind, k, file);
    KeepsInv(s, m);
    SameReach(s, m, k, 2);
    var b := RequestIsAnswered(m, t, rid, ch, x, reply);
    GoesOn(s, m, b);
    SameAnswer(m.r.tasks[t], b.r.tasks[t], R.Payload(reply), b.r.tasks[t]);
    SameTalk(s, m, b, t);
    longer := Prolonged(run, b);
  }

  lemma SameReach(s: State, m: State, k: ServerId, n: nat)
    requires m.a == s.a
    ensures Reachable(m, k, n) == Reachable(s, k, n) && (Reachable(s, k, n) ==> Reachable(s, k, 0) && k in s.a.servers)
    ensures Reachable(s, k, 0) ==> Reachable(m, k, 0) && QueueOf(m, k) == QueueOf(s, k)
  {}

  lemma SameAnswer(x: R.Task, y: R.Task, p: seq<Item>, now: R.Task)
    requires AnswerFor(x, p, now) && y.kind == x.kind && y.second == x.second
    ensures AnswerFor(y, p, now)
  {
    hide IsVerdict;
  }

  lemma SameTalk(s: State, m: State, b: State, t: TaskId)
    requires m.a == s.a && m.base == s.base && TalkedTo(m, b, t)
    ensures TalkedTo(s, b, t)
  {}

  /** What the replies come to: a status is the body of the answer, whatever its size; a metadata reply is
      streamed as it was formatted, and anything that is uploaded in its place as it comes; and a missing file
      is a 404. */
  lemma ReplyIsAnswered(run: seq<State>, t: TaskId, k: ServerId, file: nat,
                        rid: RequestId, ch: ChannelId, x: ResponderId, reply: R.Reply)
    returns (longer: seq<State>)
    requires IsRun(run)
    requires var s := run[|run| - 1];
      t !in s.r.tasks && s.r.lock == None && Reachable(s, k, 2) && Fresh(s, rid, ch, x)
    ensures IsRun(longer) && run <= longer
    ensures var b := longer[|longer| - 1];
      match reply
      case StatusReply(body) => R.At(b.r, t, R.Exited(Body(body))) && b.r.tasks[t].kind == R.ForStatus
      case MetadataReply(m) =>
        && R.At(b.r, t, R.Ended) && b.r.tasks[t].kind == R.ForMetadata
        && O.HasChannel(b.r, t) && O.ChannelOf(b.r, t).delivered == [Chunk(Codec.FormatMetadata(m))]
      case FileMissing => R.At(b.r, t, R.Exited(Status(404)))
      case Upload(payload) =>
        payload != [] && payload[0].Chunk? ==>
          R.At(b.r, t, R.Ended) && O.HasChannel(b.r, t) && O.ChannelOf(b.r, t).delivered == payload
  {
    hide Next, Init, Inv, TalkedTo, Codec.FormatMetadata, Reachable, Fresh;
    var kind := if reply.StatusReply? then R.ForStatus else R.ForMetadata;
    longer := ClientIsAnswered(run, t, kind, k, file, rid, ch, x, reply);
    if reply.StatusReply? {
      OneChunkIsBody(reply.body, Some(2_000_000));
    }
    hide IsRun, IsVerdict;
  }

  /** With one message in the queue, what the task asked for is known. */
  lemma MetadataIsRead(task: R.Task, m: Codec.Metadata, now: R.Task)
    requires task.kind == R.ForDownload && !task.second
    requires AnswerFor(task, [Chunk(Codec.FormatMetadata(m))], now)
    ensures now.pc == R.Parsing && now.acc == Codec.FormatMetadata(m)
  {
    hide Codec.FormatMetadata;
    var b := Codec.FormatMetadata(m);
    D.OnlyChunk([Chunk(b)], b);
    OneChunkIsBody(b, None);
    hide IsVerdict;
  }

  lemma OneChunkIsBody(b: Bytes, limit: Option<nat>)
    ensures forall o :: IsVerdict([Chunk(b)], limit, o) <==> o == Body(b)
  {
    D.OnlyChunk([Chunk(b)], b);
    hide Concat;
  }

  /** The metadata has been read, and the second request may be made. */
  lemma Parses(s: State, t: TaskId, m: Codec.Metadata) returns (b: State)
    requires R.At(s.r, t, R.Parsing) && s.r.tasks[t].acc == Codec.FormatMetadata(m) && Codec.Survives(s.fits, m)
    ensures Leads(s, b) && b.a == s.a && b.base == s.base && b.fits == s.fits
    ensures b.r == s.r.(tasks := s.r.tasks[t := s.r.tasks[t].(pc := R.Online, second := true, rx := None,
                                                              fileName := m.fileName, fileSize := m.fileSize)])
  {
    hide Leads, Codec.FormatMetadata, Codec.ReadMetadata;
    Stays(s);
    Goes(s, s, Parse(t));
    b := Apply(s, Parse(t));
  }

  lemma AsksMetadata(s: State, t: TaskId, rid: RequestId, ch: ChannelId, x: ResponderId, m: Codec.Metadata)
    returns (b: State)
    requires Inv(s) && R.CanOpen(s.r, t, rid, ch) && Reachable(s, s.r.tasks[t].agent, 3) && x !in s.r.responders
    requires s.r.tasks[t].kind == R.ForDownload && !s.r.tasks[t].second && Codec.Survives(s.fits, m)
    ensures Leads(s, b) && Inv(b) && Drawn(s, b, rid, ch, x) && R.At(b.r, t, R.Online)
    ensures b.r.registry == s.r.registry && b.r.lock == None && b.base == s.base && b.fits == s.fits
    ensures var task, k := b.r.tasks[t], s.r.tasks[t].agent;
      && task.kind == R.ForDownload && task.second && task.agent == k && task.file == s.r.tasks[t].file
      && task.fileName == m.fileName && task.fileSize == m.fileSize
      && Reachable(s, k, 0) && Reachable(b, k, 2)
      && QueueOf(b, k) == QueueOf(s, k) + [H.SendMessage(H.MetadataReq(task.file, rid))]
  {
    hide Leads, Inv, AnswerFor, Reachable, Codec.FormatMetadata, Codec.Survives, TalkedTo;
    RoomForTwo(s, s.r.tasks[t].agent);
    var i := RequestIsAnswered(s, t, rid, ch, x, R.MetadataReply(m));
    MetadataIsRead(s.r.tasks[t], m, i.r.tasks[t]);
    b := Parses(i, t, m);
    GoesOn(s, i, b);
    KeepsInv(s, b);
    MetadataAsked(s, i, b, t, rid);
  }

  lemma RoomForTwo(s: State, k: ServerId)
    requires Reachable(s, k, 3)
    ensures Reachable(s, k, 2) && Reachable(s, k, 0)
  {}

  lemma MetadataAsked(s: State, i: State, b: State, t: TaskId, rid: RequestId)
    requires TalkedTo(s, i, t) && R.At(i.r, t, R.Parsing) && b.a == i.a && Reachable(s, i.r.tasks[t].agent, 3)
    requires i.a.servers == s.a.servers
    requires i.r.tasks[t].kind == R.ForDownload && !i.r.tasks[t].second && i.r.tasks[t].rid == rid
    ensures var k := i.r.tasks[t].agent;
      && Reachable(s, k, 0) && Reachable(b, k, 2)
      && QueueOf(b, k) == QueueOf(s, k) + [H.SendMessage(H.MetadataReq(i.r.tasks[t].file, rid))]
  {}

  lemma AsksFile(s: State, t: TaskId, rid: RequestId, ch: ChannelId, x: ResponderId, payload: seq<Item>)
    returns (b: State)
    requires Inv(s) && R.CanOpen(s.r, t, rid, ch) && Reachable(s, s.r.tasks[t].agent, 2) && x !in s.r.responders
    requires s.r.tasks[t].kind == R.ForDownload && s.r.tasks[t].second && payload != [] && payload[0].Chunk?
    ensures Leads(s, b) && R.At(b.r, t, R.Ended) && O.HasChannel(b.r, t) && O.ChannelOf(b.r, t).delivered == payload
    ensures b.r.registry == s.r.registry && b.r.lock == None && b.r.tasks[t].rid == rid
    ensures b.r.tasks[t].fileName == s.r.tasks[t].fileName && b.r.tasks[t].fileSize == s.r.tasks[t].fileSize
    ensures var k := s.r.tasks[t].agent;
      && Reachable(s, k, 0) && Reachable(b, k, 0)
      && exists url ::
           && QueueOf(b, k) == QueueOf(s, k) + [H.SendMessage(H.UploadTo(s.r.tasks[t].file, url))]
           && s.base + "/upload/" <= url && Decimals.ParseU64(url[|s.base| + 8..]) == Some(rid)
  {
    hide Leads, Inv, IsVerdict, Reachable, TalkedTo;
    b := RequestIsAnswered(s, t, rid, ch, x, R.Upload(payload));
    FileAsked(s, b, t);
  }

  lemma FileAsked(s: State, b: State, t: TaskId)
    requires TalkedTo(s, b, t) && R.At(b.r, t, R.Ended) && b.r.tasks[t].kind == R.ForDownload && b.r.tasks[t].second
    ensures var k := b.r.tasks[t].agent;
      && Reachable(s, k, 0) && Reachable(b, k, 0)
      && exists url ::
           && QueueOf(b, k) == QueueOf(s, k) + [H.SendMessage(H.UploadTo(b.r.tasks[t].file, url))]
           && s.base + "/upload/" <= url && Decimals.ParseU64(url[|s.base| + 8..]) == Some(b.r.tasks[t].rid)
  {
    hide Decimals.ParseU64;
    var k := b.r.tasks[t].agent;
    var m :| QueueOf(b, k) == QueueOf(s, k) + [H.SendMessage(m)] + Notice(b.r.tasks[t].pc)
             && D.AsksFor(m, b.r.tasks[t], s.base);
    assert m.UploadTo? && QueueOf(b, k) == QueueOf(s, k) + [H.SendMessage(H.UploadTo(b.r.tasks[t].file, m.uploadUrl))];
  }

  /** A download whose metadata can be read: the client gets the whole file, and the agent is asked for
      the metadata and then for the file, under two different ids. */
  lemma DownloadIsDelivered(run: seq<State>, t: TaskId, k: ServerId, file: nat,
                            rid: RequestId, ch: ChannelId, x: ResponderId, m: Codec.Metadata,
                            again: RequestId, next: ChannelId, y: ResponderId, payload: seq<Item>)
    returns (longer: seq<State>)
    requires IsRun(run) && Codec.Survives(run[|run| - 1].fits, m) && payload != [] && payload[0].Chunk?
    requires var s := run[|run| - 1];
      && t !in s.r.tasks && s.r.lock == None && Reachable(s, k, 3)
      && Fresh(s, rid, ch, x) && Fresh(s, again, next, y) && again != rid && next != ch && y != x
    ensures IsRun(longer) && run <= longer
    ensures var s, b := run[|run| - 1], longer[|longer| - 1];
      && R.At(b.r, t, R.Ended) && O.HasChannel(b.r, t) && O.ChannelOf(b.r, t).delivered == payload
      && b.r.tasks[t].fileName == m.fileName && b.r.tasks[t].fileSize == m.fileSize
      && b.r.registry == s.r.registry && b.r.lock == None
      && Reachable(s, k, 0) && Reachable(b, k, 0) && b.r.tasks[t].rid == again
      && exists url ::
           && QueueOf(b, k) == QueueOf(s, k) + [H.SendMessage(H.MetadataReq(file, rid))]
                                             + [H.SendMessage(H.UploadTo(file, url))]
           && s.base + "/upload/" <= url && Decimals.ParseU64(url[|s.base| + 8..]) == Some(again)
  {
    hide Next, Init, Leads, Inv, R.Payload, TalkedTo, AnswerFor, D.SawEnd, Answered, Reachable, Codec.Survives;
    var s := run[|run| - 1];
    InvHolds(run, |run| - 1);
    var i := Arrives(s, t, R.ForDownload, k, file);
    KeepsInv(s, i);
    SameReach(s, i, k, 3);
    var j := AsksMetadata(i, t, rid, ch, x, m);
    GoesOn(s, i, j);
    KeepsInv(s, j);
    var b := AsksFile(j, t, again, next, y, payload);
    GoesOn(s, j, b);
    longer := Prolonged(run, b);
  }

  // ---------------------------------------------------------------------------------------------
  // Nobody answers, and nobody listens
  // ---------------------------------------------------------------------------------------------

  /** Whoever waits may be told that it took too long; the request is withdrawn, and the agent told. */
  lemma TimesOut(s: State, t: TaskId) returns (b: State)
    requires Inv(s) && R.At(s.r, t, R.Waiting) && s.r.lock == None && Reachable(s, s.r.tasks[t].agent, 1)
    ensures Leads(s, b) && R.At(b.r, t, R.Exited(Status(408)))
    ensures b.r.registry == s.r.registry - {s.r.tasks[t].rid} && b.a.servers == s.a.servers
    ensures var k := s.r.tasks[t].agent;
      && Reachable(s, k, 0) && Reachable(b, k, 0)
      && QueueOf(b, k) == QueueOf(s, k) + [H.SendMessage(H.UploadFailed("failed to upload in time"))]
  {
    SenderKnown(s, t);
    hide Leads, Inv;
    var m := WithdrawsLate(s, t);
    SameReach(s, m, s.r.tasks[t].agent, 1);
    b := Notifies(m, t);
    GoesOn(s, m, b);
  }

  lemma SenderKnown(s: State, t: TaskId)
    requires Inv(s) && t in s.r.tasks && HasSender(s.r.tasks[t].pc)
    ensures s.r.tasks[t].agent in s.a.servers && s.a.servers[s.r.tasks[t].agent] == s.r.tasks[t].ws
    ensures O.HasChannel(s.r, t)
  {
    assert Guarded(s, t) && RS.TaskOk(s.r, t);
  }

  lemma WithdrawsLate(s: State, t: TaskId) returns (b: State)
    requires R.At(s.r, t, R.Waiting) && s.r.lock == None && O.HasChannel(s.r, t)
    ensures Leads(s, b) && b.a == s.a && b.r.lock == None && O.HasChannel(b.r, t)
    ensures b.r.tasks == s.r.tasks[t := s.r.tasks[t].(pc := R.Failed(408))]
    ensures b.r.registry == s.r.registry - {s.r.tasks[t].rid}
  {
    hide Leads;
    Stays(s);
    Goes(s, s, TimeOut(t));
    b := Apply(s, TimeOut(t));
    Goes(s, b, Withdraw(t));
    b := Apply(b, Withdraw(t));
  }

  /** A client may go away at any time; whoever is still sending notices it with the next item, and frees
      the registry. */
  lemma ClientLeaves(s: State, t: TaskId, x: ResponderId) returns (b: State)
    requires Serving(s.r, t, x) && O.Reads(s.r.tasks[t].pc) && s.r.responders[x].sent < |PayloadOf(s.r, x)|
    ensures Leads(s, b) && R.At(b.r, t, R.Aborted(R.Dropped)) && b.r.registry == s.r.registry && b.a == s.a
    ensures x in b.r.responders && b.r.responders[x] == s.r.responders[x].(pc := R.Done(R.ClientGone))
    ensures O.HasChannel(b.r, t) && O.ChannelOf(b.r, t) == O.ChannelOf(s.r, t).(rxOpen := false) && b.r.lock == None
  {
    hide Leads, R.Payload;
    var m := Drops(s, t);
    Goes(s, m, Send(x));
    b := Apply(m, Send(x));
  }

  lemma Drops(s: State, t: TaskId) returns (b: State)
    requires O.HasChannel(s.r, t) && !R.IsOver(s.r.tasks[t].pc)
    ensures Leads(s, b) && b.a == s.a
    ensures b.r == s.r.(
      tasks := s.r.tasks[t := s.r.tasks[t].(pc := R.Aborted(R.Dropped))],
      channels := s.r.channels[s.r.tasks[t].rx.value := O.ChannelOf(s.r, t).(rxOpen := false)])
  {
    hide Leads;
    Stays(s);
    Goes(s, s, Drop(t));
    b := Apply(s, Drop(t));
  }

  /** Is the agent's websocket gone although its sender is still on the list, then asking it ends in a
      panic, and the request stays registered; the second request of a download ends without one. */
  lemma AsksTheDead(s: State, t: TaskId, rid: RequestId, ch: ChannelId) returns (b: State)
    requires R.CanOpen(s.r, t, rid, ch) && s.r.tasks[t].agent in s.a.servers
    requires A.InPhase(s.a, s.a.servers[s.r.tasks[t].agent], A.Closed)
    ensures Leads(s, b) && R.At(b.r, t, R.Aborted(if s.r.tasks[t].second then R.AgentGone else R.SendPanic))
    ensures b.r.registry == s.r.registry[rid := ch] && b.a == s.a && t !in b.readers
    ensures O.HasChannel(b.r, t) && !O.ChannelOf(b.r, t).rxOpen && b.r.tasks[t].rid == rid
  {
    hide Leads;
    var m := Registers(s, t, rid, ch);
    Goes(s, m, Ask(t));
    b := Apply(m, Ask(t));
  }

  /** Telling it that its file is too large ends in a panic as well ... */
  lemma RejectsTheDead(s: State, t: TaskId)
    requires R.At(s.r, t, R.TooLarge) && A.InPhase(s.a, s.r.tasks[t].ws, A.Closed)
    ensures Enabled(s, Reject(t))
    ensures var b := Apply(s, Reject(t)); R.At(b.r, t, R.Aborted(R.SendPanic)) && b.a == s.a && t !in b.readers
  {}

  /** ... but telling it that it was late does not. */
  lemma NotifiesTheDead(s: State, t: TaskId)
    requires t in s.r.tasks && s.r.tasks[t].pc.Failed? && A.InPhase(s.a, s.r.tasks[t].ws, A.Closed)
    ensures Enabled(s, Notify(t))
    ensures var b := Apply(s, Notify(t));
      R.At(b.r, t, R.Exited(Status(s.r.tasks[t].pc.code))) && b.a == s.a && t !in b.readers
  {}
}
