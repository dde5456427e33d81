/**
  Agents as a transition system: one step for each stretch of code between two awaits. Connections,
  authentication futures, the watcher and the two registries of senders interleave freely.
*/
module Agents {
  import opened Common
  import opened Handlers

  /** Opened: the channel exists. Checked: no agent was logged in under the id. Live: the handler
      runs. Closed: the receiving half is gone. */
  datatype Phase = Opened | Checked | Live | Closed

  datatype Conn = Conn(openedAt: ServerId, phase: Phase, h: Handler)

  datatype FuturePc =
    | Validating
    | Claiming
    | Publishing(sender: ConnId)
    | SendingOk
    | SendingAuthenticated
    | SendingError
    | SendingClose
    | Finished

  /** The future that an `AuthRes` spawns. It names an id of its own, which need not be its owner's. */
  datatype AuthFuture = AuthFuture(owner: ConnId, publicId: ServerId, passcode: Passcode, pc: FuturePc)

  /** The watcher holds the write lock of `unauthenticated_servers` in all states but the first and last. */
  datatype Watcher = Idle | Sweeping | Closing(conn: ConnId) | Crashed

  /** What has happened so far, counted. None of it is read by a step. */
  datatype History = History(
    validated: multiset<ServerId>,     // successful validations, by the id they were for
    publishedIds: multiset<ServerId>,  // publications, by the id published under
    admitted: multiset<ConnId>,        // senders put into `unauthenticated_servers`
    overwritten: multiset<ConnId>,     // ... and thrown out of it by a newer admission
    expired: multiset<ConnId>,         // ... or popped by the watcher
    claimed: multiset<ConnId>,         // ... or taken by an authentication future
    published: multiset<ConnId>,       // claimed senders put into `servers`
    abandoned: multiset<ConnId>,       // claimed senders dropped with their future
    unpublished: multiset<ConnId>,     // published senders removed or overwritten
    stopRemovals: multiset<ConnId>)    // runs of the removal that `stopping` spawns

  datatype Agents = Agents(
    conns: map<ConnId, Conn>,
    unauth: map<ServerId, ConnId>,
    servers: map<ServerId, ConnId>,
    futures: map<FutureId, AuthFuture>,
    watcher: Watcher,
    db: map<ServerId, Passcode>,
    hist: History)

  /** Steps that concern one connection alone. */
  datatype LocalAct = Open(k: ServerId) | Check | Abandon | Stop | StopReport | Drain | Ping

  datatype Step =
    | Local(c: ConnId, act: LocalAct)
    | Admit(c: ConnId, started: bool)
    | StopRemove(c: ConnId)
    | AuthRes(c: ConnId, f: FutureId, p: ServerId, passcode: Passcode)
    | Validate(f: FutureId, dbFails: bool)
    | Claim(f: FutureId)
    | Publish(f: FutureId)
    | Reply(f: FutureId)
    | Cancel(f: FutureId)
    | SweepStart
    | SweepPop(k: ServerId)
    | SweepSend
    | SweepEnd
    | Rewrite(db: map<ServerId, Passcode>)

  const NO_HISTORY := History(multiset{}, multiset{}, multiset{}, multiset{}, multiset{},
                              multiset{}, multiset{}, multiset{}, multiset{}, multiset{})

  ghost predicate Init(a: Agents) {
    && a.conns == map[] && a.unauth == map[] && a.servers == map[] && a.futures == map[]
    && a.watcher == Idle && a.hist == NO_HISTORY
  }

  predicate InPhase(a: Agents, c: ConnId, ph: Phase) { c in a.conns && a.conns[c].phase == ph }

  predicate AtPc(a: Agents, f: FutureId, pc: FuturePc) { f in a.futures && a.futures[f].pc == pc }

  predicate UnauthLockFree(a: Agents) { a.watcher == Idle || a.watcher == Crashed }

  predicate HasRoom(a: Agents, c: ConnId) { c in a.conns && |a.conns[c].h.queue| < CHANNEL_CAPACITY }

  /** Sending completes at once if the receiver is gone, and otherwise waits for room. */
  predicate SendCompletes(a: Agents, c: ConnId) { c in a.conns && (a.conns[c].phase == Closed || HasRoom(a, c)) }

  /** Steps that run under the write lock of `servers`. */
  predicate WritesServers(s: Step) { s.StopRemove? || s.Publish? }

  /** The sender registered under a key, for the books: nobody or one. */
  function At(m: map<ServerId, ConnId>, k: ServerId): multiset<ConnId> {
    if k in m then multiset{m[k]} else multiset{}
  }

  function WithConn(a: Agents, c: ConnId, conn: Conn): Agents { a.(conns := a.conns[c := conn]) }

  function WithPc(a: Agents, f: FutureId, pc: FuturePc): Agents
    requires f in a.futures
  {
    a.(futures := a.futures[f := a.futures[f].(pc := pc)])
  }

  /** What a send does: nothing if the receiver is gone, which is only logged. */
  function Sent(a: Agents, c: ConnId, m: InternalComm): Agents
    requires c in a.conns
  {
    if a.conns[c].phase == Closed then a
    else WithConn(a, c, a.conns[c].(h := OnReceive(a.conns[c].h, m)))
  }

  // ---------------------------------------------------------------------------------------------
  // One connection
  // ---------------------------------------------------------------------------------------------

  predicate CanAct(a: Agents, c: ConnId, act: LocalAct) {
    match act
    case Open(k) => c !in a.conns
    case Check => InPhase(a, c, Opened)
    case Abandon => InPhase(a, c, Opened) || InPhase(a, c, Checked) || InPhase(a, c, Live)
    case Stop => InPhase(a, c, Live)
    case StopReport => InPhase(a, c, Live) && a.conns[c].h.stop == RemovalDone && HasRoom(a, c)
    case Drain => InPhase(a, c, Live)
    case Ping => InPhase(a, c, Live)
  }

  /** Open: the channel is made and the request for authentication queued. Check: a logged-in agent
      of the same id shuts this one out. Abandon: the upgrade request is dropped, or the actor torn
      down. Stop: the actor asks to stop, and goes when it is told that it may. */
  function Acted(a: Agents, c: ConnId, act: LocalAct): Conn
    requires CanAct(a, c, act)
  {
    match act
    case Open(k) =>
      Conn(k, Opened, Handler(Running, Unauthenticated, 0, [SendMessage(AuthReq(k))], NotSpawned))
    case Check => a.conns[c].(phase := if a.conns[c].openedAt in a.servers then Closed else Checked)
    case Abandon => a.conns[c].(phase := Closed)
    case Stop =>
      if a.conns[c].h.wsState == Stopped then a.conns[c].(phase := Closed)
      else a.conns[c].(h := OnStopping(a.conns[c].h))
    case StopReport => a.conns[c].(h := OnReport(a.conns[c].h))
    case Drain => a.conns[c].(h := OnDrain(a.conns[c].h))
    case Ping => a.conns[c].(h := OnPing(a.conns[c].h))
  }

  // ---------------------------------------------------------------------------------------------
  // The registries
  // ---------------------------------------------------------------------------------------------

  predicate CanAdmit(a: Agents, c: ConnId) { InPhase(a, c, Checked) && UnauthLockFree(a) }

  /** The sender is registered; `started` tells whether the websocket upgrade then succeeds. */
  function AfterAdmit(a: Agents, c: ConnId, started: bool): Agents
    requires CanAdmit(a, c)
  {
    var k := a.conns[c].openedAt;
    WithConn(a, c, a.conns[c].(phase := if started then Live else Closed))
      .(unauth := a.unauth[k := c],
        hist := a.hist.(admitted := a.hist.admitted + multiset{c},
                        overwritten := a.hist.overwritten + At(a.unauth, k)))
  }

  predicate CanStopRemove(a: Agents, c: ConnId) { InPhase(a, c, Live) && a.conns[c].h.stop == RemovalPending }

  function AfterStopRemove(a: Agents, c: ConnId): Agents
    requires CanStopRemove(a, c)
  {
    var k := a.conns[c].openedAt;
    WithConn(a, c, a.conns[c].(h := OnRemoved(a.conns[c].h)))
      .(servers := a.servers - {k},
        hist := a.hist.(unpublished := a.hist.unpublished + At(a.servers, k),
                        stopRemovals := a.hist.stopRemovals + multiset{c}))
  }

  predicate CanAuthRes(a: Agents, c: ConnId, f: FutureId) {
    InPhase(a, c, Live) && a.conns[c].h.wsState == Running && f !in a.futures
  }

  function AfterAuthRes(a: Agents, c: ConnId, f: FutureId, p: ServerId, passcode: Passcode): Agents
    requires CanAuthRes(a, c, f)
  {
    a.(futures := a.futures[f := AuthFuture(c, p, passcode, Validating)])
  }

  function AfterValidate(a: Agents, f: FutureId, dbFails: bool): Agents
    requires AtPc(a, f, Validating)
  {
    var p := a.futures[f].publicId;
    if dbFails then WithPc(a, f, Finished)
    else if p in a.db && a.db[p] == a.futures[f].passcode then
      WithPc(a, f, Claiming).(hist := a.hist.(validated := a.hist.validated + multiset{p}))
    else WithPc(a, f, SendingError)
  }

  predicate CanClaim(a: Agents, f: FutureId) { AtPc(a, f, Claiming) && UnauthLockFree(a) }

  function AfterClaim(a: Agents, f: FutureId): Agents
    requires CanClaim(a, f)
  {
    var p := a.futures[f].publicId;
    if p in a.unauth then
      WithPc(a, f, Publishing(a.unauth[p]))
        .(unauth := a.unauth - {p},
          hist := a.hist.(claimed := a.hist.claimed + multiset{a.unauth[p]}))
    else WithPc(a, f, Finished)
  }

  predicate CanPublish(a: Agents, f: FutureId) { f in a.futures && a.futures[f].pc.Publishing? }

  function AfterPublish(a: Agents, f: FutureId): Agents
    requires CanPublish(a, f)
  {
    var p, c := a.futures[f].publicId, a.futures[f].pc.sender;
    WithPc(a, f, SendingOk)
      .(servers := a.servers[p := c],
        hist := a.hist.(published := a.hist.published + multiset{c},
                        publishedIds := a.hist.publishedIds + multiset{p},
                        unpublished := a.hist.unpublished + At(a.servers, p)))
  }

  predicate CanReply(a: Agents, f: FutureId) {
    && f in a.futures && SendCompletes(a, a.futures[f].owner)
    && (a.futures[f].pc == SendingOk || a.futures[f].pc == SendingAuthenticated
        || a.futures[f].pc == SendingError || a.futures[f].pc == SendingClose)
  }

  /** What the future tells its own websocket next, and where it then stands. */
  function Answer(pc: FuturePc): (InternalComm, FuturePc) {
    if pc == SendingOk then (SendMessage(AuthOk), SendingAuthenticated)
    else if pc == SendingAuthenticated then (NowAuthenticated, Finished)
    else if pc == SendingError then (SendMessage(AuthFailed), SendingClose)
    else (CloseConnection, Finished)
  }

  function AfterReply(a: Agents, f: FutureId): Agents
    requires CanReply(a, f)
  {
    WithPc(Sent(a, a.futures[f].owner, Answer(a.futures[f].pc).0), f, Answer(a.futures[f].pc).1)
  }

  predicate CanCancel(a: Agents, f: FutureId) { f in a.futures && a.futures[f].pc != Finished }

  /** The future is dropped at an await, and with it a sender it may hold. */
  function AfterCancel(a: Agents, f: FutureId): Agents
    requires CanCancel(a, f)
  {
    var lost := if a.futures[f].pc.Publishing? then multiset{a.futures[f].pc.sender} else multiset{};
    WithPc(a, f, Finished).(hist := a.hist.(abandoned := a.hist.abandoned + lost))
  }

  // ---------------------------------------------------------------------------------------------
  // The watcher
  // ---------------------------------------------------------------------------------------------

  predicate CanSweepPop(a: Agents, k: ServerId) { a.watcher == Sweeping && k in a.unauth }

  /** An entry is popped; which one, and why, is settled in module Watcher. */
  function AfterSweepPop(a: Agents, k: ServerId): Agents
    requires CanSweepPop(a, k)
  {
    a.(unauth := a.unauth - {k}, watcher := Closing(a.unauth[k]),
       hist := a.hist.(expired := a.hist.expired + multiset{a.unauth[k]}))
  }

  predicate CanSweepSend(a: Agents) { a.watcher.Closing? && SendCompletes(a, a.watcher.conn) }

  function AfterSweepSend(a: Agents): Agents
    requires CanSweepSend(a)
  {
    if a.conns[a.watcher.conn].phase == Closed then a.(watcher := Crashed)
    else Sent(a, a.watcher.conn, CloseConnection).(watcher := Sweeping)
  }

  // ---------------------------------------------------------------------------------------------
  // All steps
  // ---------------------------------------------------------------------------------------------

  predicate Enabled(a: Agents, s: Step) {
    match s
    case Local(c, act) => CanAct(a, c, act)
    case Admit(c, _) => CanAdmit(a, c)
    case StopRemove(c) => CanStopRemove(a, c)
    case AuthRes(c, f, _, _) => CanAuthRes(a, c, f)
    case Validate(f, _) => AtPc(a, f, Validating)
    case Claim(f) => CanClaim(a, f)
    case Publish(f) => CanPublish(a, f)
    case Reply(f) => CanReply(a, f)
    case Cancel(f) => CanCancel(a, f)
    case SweepStart => a.watcher == Idle
    case SweepPop(k) => CanSweepPop(a, k)
    case SweepSend => CanSweepSend(a)
    case SweepEnd => a.watcher == Sweeping
    case Rewrite(db) => a.db.Keys <= db.Keys
  }

  function Apply(a: Agents, s: Step): Agents
    requires Enabled(a, s)
  {
    match s
    case Local(c, act) => WithConn(a, c, Acted(a, c, act))
    case Admit(c, started) => AfterAdmit(a, c, started)
    case StopRemove(c) => AfterStopRemove(a, c)
    case AuthRes(c, f, p, passcode) => AfterAuthRes(a, c, f, p, passcode)
    case Validate(f, dbFails) => AfterValidate(a, f, dbFails)
    case Claim(f) => AfterClaim(a, f)
    case Publish(f) => AfterPublish(a, f)
    case Reply(f) => AfterReply(a, f)
    case Cancel(f) => AfterCancel(a, f)
    case SweepStart => a.(watcher := Sweeping)
    case SweepPop(k) => AfterSweepPop(a, k)
    case SweepSend => AfterSweepSend(a)
    case SweepEnd => a.(watcher := Idle)
    case Rewrite(db) => a.(db := db)
  }
}
