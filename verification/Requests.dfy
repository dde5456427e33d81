/**
  Requests as a transition system: the tasks that serve clients, the responders that answer them,
  and the channels between. A step is a stretch of code between two awaits. What a task learns from
  the registry of agents is an input of the step here, and is tied to that registry in module Broker.
*/
module Requests {
  import opened Common
  import opened Collector
  import Codec

  // ---------------------------------------------------------------------------------------------
  // Responders: whoever may take a request's sender out of the registry
  // ---------------------------------------------------------------------------------------------

  datatype Reply =
    | Upload(payload: seq<Item>)
    | MetadataReply(metadata: Codec.Metadata)
    | StatusReply(body: Bytes)
    | FileMissing

  /** Everything a responder means to send. */
  function Payload(k: Reply): seq<Item> {
    match k
    case Upload(payload) => payload
    case MetadataReply(m) => [Chunk(Codec.FormatMetadata(m))]
    case StatusReply(body) => [Chunk(body)]
    case FileMissing => []
  }

  datatype End = Completed | NoSuchRequest | ClientGone | Cancelled
  datatype ResponderPc = Arrived | Sending(ch: ChannelId) | Done(end: End)
  datatype Responder = Responder(target: RequestId, reply: Reply, pc: ResponderPc, sent: nat, took: Option<ChannelId>)

  // ---------------------------------------------------------------------------------------------
  // Channels and tasks
  // ---------------------------------------------------------------------------------------------

  /** Where the only sender of a request channel went. */
  datatype Sender = Registered | TakenBy(x: ResponderId) | Withdrawn

  datatype Channel = Channel(rid: RequestId, owner: TaskId, queue: seq<Item>, delivered: seq<Item>,
                             rxOpen: bool, sender: Sender)

  datatype Kind = ForMetadata | ForDownload | ForStatus

  datatype Why = LookupPanic | SendPanic | ParsePanic | AgentGone | Dropped

  datatype TaskPc =
    | Start
    | Online                  // the agent is logged in, and the read guard is held
    | Asking                  // the request is registered
    | Routed                  // the agent's sender has been looked up
    | Waiting                 // for the first item
    | Failing(code: nat)      // about to withdraw the request
    | Failed(code: nat)       // about to tell the agent
    | Collecting
    | TooLarge                // about to tell the agent
    | Parsing                 // the metadata of a download
    | Streaming               // the handler has returned its body
    | Ended                   // the body has ended
    | Exited(outcome: Outcome)
    | NotOnline
    | Aborted(why: Why)

  datatype Task = Task(kind: Kind, agent: ServerId, file: nat, second: bool, rid: RequestId, rx: Option<ChannelId>,
                       ws: ConnId, pc: TaskPc, acc: Bytes, fileName: Bytes, fileSize: nat)

  datatype Requests = Requests(
    registry: map<RequestId, ChannelId>,
    channels: map<ChannelId, Channel>,
    responders: map<ResponderId, Responder>,
    tasks: map<TaskId, Task>,
    lock: Option<ResponderId>,  // the writer of `requests` that keeps its guard while it sends
    used: set<RequestId>)       // all request ids drawn so far

  ghost predicate Init(r: Requests) {
    r.registry == map[] && r.channels == map[] && r.responders == map[] && r.tasks == map[] && r.lock == None
    && r.used == {}
  }

  predicate Collects(t: Task) { t.kind == ForStatus || (t.kind == ForDownload && !t.second) }

  const STATUS_LIMIT := 2_000_000

  function Limit(t: Task): Option<nat> { if t.kind == ForStatus then Some(STATUS_LIMIT) else None }

  /** The channel has a sender left. */
  predicate SenderAlive(r: Requests, ch: ChannelId)
    requires ch in r.channels
  {
    match r.channels[ch].sender
    case Registered => true
    case TakenBy(x) => x in r.responders && r.responders[x].pc == Sending(ch)
    case Withdrawn => false
  }

  // ---------------------------------------------------------------------------------------------
  // Steps of a responder
  // ---------------------------------------------------------------------------------------------

  function WithResponder(r: Requests, x: ResponderId, y: Responder): Requests {
    r.(responders := r.responders[x := y])
  }

  predicate CanArrive(r: Requests, x: ResponderId) { x !in r.responders }

  function AfterArrive(r: Requests, x: ResponderId, target: RequestId, reply: Reply): Requests
    requires CanArrive(r, x)
  {
    WithResponder(r, x, Responder(target, reply, Arrived, 0, None))
  }

  predicate CanTake(r: Requests, x: ResponderId) {
    x in r.responders && r.responders[x].pc == Arrived && r.lock == None
  }

  /** Takes the sender out of the registry, and keeps the lock until it is done with it. */
  function AfterTake(r: Requests, x: ResponderId): Requests
    requires CanTake(r, x)
  {
    var y := r.responders[x];
    if y.target in r.registry then
      var ch := r.registry[y.target];
      WithResponder(r, x, y.(pc := Sending(ch), took := Some(ch)))
        .(registry := r.registry - {y.target}, lock := Some(x),
          channels := if ch in r.channels then r.channels[ch := r.channels[ch].(sender := TakenBy(x))] else r.channels)
    else WithResponder(r, x, y.(pc := Done(NoSuchRequest)))
  }

  predicate CanSend(r: Requests, x: ResponderId) {
    && x in r.responders && r.responders[x].pc.Sending?
    && r.responders[x].sent < |Payload(r.responders[x].reply)|
    && r.responders[x].pc.ch in r.channels
    && (r.channels[r.responders[x].pc.ch].rxOpen ==> |r.channels[r.responders[x].pc.ch].queue| < CHANNEL_CAPACITY)
  }

  function AfterSend(r: Requests, x: ResponderId): Requests
    requires CanSend(r, x)
  {
    var y := r.responders[x];
    var c := r.channels[y.pc.ch];
    if c.rxOpen then
      WithResponder(r, x, y.(sent := y.sent + 1))
        .(channels := r.channels[y.pc.ch := c.(queue := c.queue + [Payload(y.reply)[y.sent]])])
    else WithResponder(r, x, y.(pc := Done(ClientGone))).(lock := None)
  }

  predicate CanFinish(r: Requests, x: ResponderId) {
    x in r.responders && r.responders[x].pc.Sending? && r.responders[x].sent == |Payload(r.responders[x].reply)|
  }

  function AfterFinish(r: Requests, x: ResponderId): Requests
    requires CanFinish(r, x)
  {
    WithResponder(r, x, r.responders[x].(pc := Done(Completed))).(lock := None)
  }

  predicate CanCancel(r: Requests, x: ResponderId) { x in r.responders && !r.responders[x].pc.Done? }

  function AfterCancel(r: Requests, x: ResponderId): Requests
    requires CanCancel(r, x)
  {
    WithResponder(r, x, r.responders[x].(pc := Done(Cancelled)))
      .(lock := if r.lock == Some(x) then None else r.lock)
  }

  // ---------------------------------------------------------------------------------------------
  // Steps of a task
  // ---------------------------------------------------------------------------------------------

  predicate At(r: Requests, t: TaskId, pc: TaskPc) { t in r.tasks && r.tasks[t].pc == pc }

  function WithTask(r: Requests, t: TaskId, task: Task): Requests { r.(tasks := r.tasks[t := task]) }

  /** The task is over: its receiver is dropped. */
  function Over(r: Requests, t: TaskId, pc: TaskPc): Requests
    requires t in r.tasks
  {
    var task := r.tasks[t];
    WithTask(r, t, task.(pc := pc))
      .(channels := if task.rx.Some? && task.rx.value in r.channels
                    then r.channels[task.rx.value := r.channels[task.rx.value].(rxOpen := false)] else r.channels)
  }

  function AfterBegin(r: Requests, t: TaskId, kind: Kind, agent: ServerId, file: nat): Requests
    requires t !in r.tasks
  {
    WithTask(r, t, Task(kind, agent, file, false, 0, None, 0, Start, [], [], 0))
  }

  function AfterCheck(r: Requests, t: TaskId, online: bool): Requests
    requires At(r, t, Start)
  {
    WithTask(r, t, r.tasks[t].(pc := if online then Online else NotOnline))
  }

  /** Ids are drawn from u64 at random; that they are new is the one assumption made about them. */
  predicate CanOpen(r: Requests, t: TaskId, rid: RequestId, ch: ChannelId) {
    At(r, t, Online) && rid !in r.used && ch !in r.channels && r.lock == None
  }

  function AfterOpen(r: Requests, t: TaskId, rid: RequestId, ch: ChannelId): Requests
    requires CanOpen(r, t, rid, ch)
  {
    WithTask(r, t, r.tasks[t].(pc := Asking, rid := rid, rx := Some(ch)))
      .(registry := r.registry[rid := ch], used := r.used + {rid},
        channels := r.channels[ch := Channel(rid, t, [], [], true, Registered)])
  }

  /** `get(..).unwrap()` on the registry of agents. */
  function AfterRoute(r: Requests, t: TaskId, found: Option<ConnId>): Requests
    requires At(r, t, Asking)
  {
    if found.Some? then WithTask(r, t, r.tasks[t].(pc := Routed, ws := found.value))
    else Over(r, t, Aborted(LookupPanic))
  }

  /** The message to the agent. Only the second phase of a download survives its failure. */
  function AfterAsk(r: Requests, t: TaskId, delivered: bool): Requests
    requires At(r, t, Routed)
  {
    if delivered then WithTask(r, t, r.tasks[t].(pc := Waiting))
    else Over(r, t, Aborted(if r.tasks[t].second then AgentGone else SendPanic))
  }

  function AfterTimeout(r: Requests, t: TaskId): Requests
    requires At(r, t, Waiting)
  {
    WithTask(r, t, r.tasks[t].(pc := Failing(REQUEST_TIMEOUT)))
  }

  predicate CanReceive(r: Requests, t: TaskId) {
    && t in r.tasks && r.tasks[t].rx.Some? && r.tasks[t].rx.value in r.channels
    && (r.tasks[t].pc == Waiting || r.tasks[t].pc == Collecting || r.tasks[t].pc == Streaming)
    && (r.channels[r.tasks[t].rx.value].queue != [] || !SenderAlive(r, r.tasks[t].rx.value))
  }

  /** What one item means for the task: its next place, and the bytes collected so far. */
  function OnItem(task: Task, x: Item): (TaskPc, Bytes) {
    match task.pc
    case Waiting =>
      if x.Broken? then (Failing(REQUEST_TIMEOUT), task.acc)
      else if Collects(task) then (Collecting, x.bytes)
      else (Streaming, task.acc)
    case Collecting =>
      if x.Broken? then (Exited(Status(SERVER_ERROR)), task.acc)
      else
        var acc := task.acc + x.bytes;
        (if Limit(task).Some? && |acc| > Limit(task).value then TooLarge else Collecting, acc)
    case _ => (task.pc, task.acc)
  }

  /** ... and what the end of the channel means. */
  function OnClose(task: Task): TaskPc {
    match task.pc
    case Waiting => Failing(NOT_FOUND)
    case Collecting => if task.kind == ForDownload then Parsing else Exited(Body(task.acc))
    case _ => Ended
  }

  predicate IsOver(pc: TaskPc) { pc.Ended? || pc.Exited? || pc.NotOnline? || pc.Aborted? }

  function AfterReceive(r: Requests, t: TaskId): Requests
    requires CanReceive(r, t)
  {
    var task := r.tasks[t];
    var ch := task.rx.value;
    var c := r.channels[ch];
    if c.queue == [] then
      var pc := OnClose(task);
      WithTask(r, t, task.(pc := pc)).(channels := r.channels[ch := c.(rxOpen := c.rxOpen && !IsOver(pc))])
    else
      var (pc, acc) := OnItem(task, c.queue[0]);
      WithTask(r, t, task.(pc := pc, acc := acc))
        .(channels := r.channels[ch := c.(queue := c.queue[1..], delivered := c.delivered + [c.queue[0]],
                                          rxOpen := c.rxOpen && !IsOver(pc))])
  }

  predicate CanWithdraw(r: Requests, t: TaskId) { t in r.tasks && r.tasks[t].pc.Failing? && r.lock == None }

  function AfterWithdraw(r: Requests, t: TaskId): Requests
    requires CanWithdraw(r, t)
  {
    var task := r.tasks[t];
    var ch := if task.rid in r.registry then Some(r.registry[task.rid]) else None;
    WithTask(r, t, task.(pc := Failed(task.pc.code)))
      .(registry := r.registry - {task.rid},
        channels := if ch.Some? && ch.value in r.channels
                    then r.channels[ch.value := r.channels[ch.value].(sender := Withdrawn)] else r.channels)
  }

  function AfterNotify(r: Requests, t: TaskId): Requests
    requires t in r.tasks && r.tasks[t].pc.Failed?
  {
    Over(r, t, Exited(Status(r.tasks[t].pc.code)))
  }

  function AfterReject(r: Requests, t: TaskId, delivered: bool): Requests
    requires At(r, t, TooLarge)
  {
    Over(r, t, if delivered then Exited(Status(PAYLOAD_TOO_LARGE)) else Aborted(SendPanic))
  }

  /** The metadata of a download is read, and the file asked for under a second request. */
  function AfterParse(r: Requests, t: TaskId, fits: Bytes -> bool): Requests
    requires At(r, t, Parsing)
  {
    match Codec.ReadMetadata(fits, r.tasks[t].acc)
    case None => Over(r, t, Aborted(ParsePanic))
    case Some((name, size)) =>
      WithTask(r, t, r.tasks[t].(pc := Online, second := true, rx := None, fileName := name, fileSize := size))
  }

  /** The client goes away and its handler, or the body it is streaming, is dropped. */
  function AfterDrop(r: Requests, t: TaskId): Requests
    requires t in r.tasks && !IsOver(r.tasks[t].pc)
  {
    Over(r, t, Aborted(Dropped))
  }
}
