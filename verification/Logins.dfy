/** What can always be brought about: how a run goes on so that an agent logs in, is refused, is thrown
    out for its silence, or goes away. */
module Logins {
  import opened Common
  import opened Broker
  import opened Runs
  import opened Service
  import A = Agents
  import AS = AgentSafety
  import H = Handlers
  import R = Requests
  import O = Outcomes
  import Codec
  import Collector

  /** Everything but the agents is left alone, and so are the names and the credentials. */
  ghost predicate OnlyAgents(s: State, b: State) { b == s.(a := b.a) && b.a.db == s.a.db }

  /** No step of the watcher is under way, and no task holds a read guard. */
  ghost predicate Quiet(s: State) { A.UnauthLockFree(s.a) && s.readers == {} }

  lemma Acts(s: State, b: State, x: A.Step)
    requires Leads(s, b) && A.Enabled(b.a, x) && (A.WritesServers(x) ==> b.readers == {})
    ensures Leads(s, b.(a := A.Apply(b.a, x)))
  {
    hide A.Enabled, A.Apply, A.WritesServers, Leads;
    assert Enabled(b, AgentStep(x));
    Goes(s, b, AgentStep(x));
  }

  /** A websocket opens where nobody is logged in, and waits to be authenticated; unless it never starts. */
  lemma ComesIn(s: State, c: ConnId, k: ServerId, started: bool) returns (b: State)
    requires c !in s.a.conns && k !in s.a.servers && Quiet(s)
    ensures Leads(s, b) && OnlyAgents(s, b) && Quiet(b)
    ensures b.a == s.a.(
      conns := s.a.conns[c := A.Conn(k, if started then A.Live else A.Closed,
                                       H.Handler(H.Running, H.Unauthenticated, 0, [H.SendMessage(H.AuthReq(k))],
                                                 H.NotSpawned))],
      unauth := s.a.unauth[k := c], hist := b.a.hist)
  {
    hide Leads;
    Stays(s);
    Acts(s, s, A.Local(c, A.Open(k)));
    b := s.(a := A.Apply(s.a, A.Local(c, A.Open(k))));
    Acts(s, b, A.Local(c, A.Check));
    b := b.(a := A.Apply(b.a, A.Local(c, A.Check)));
    Acts(s, b, A.Admit(c, started));
    b := b.(a := A.Apply(b.a, A.Admit(c, started)));
  }

  ghost predicate IsLive(s: State, c: ConnId, room: nat) {
    A.InPhase(s.a, c, A.Live) && s.a.conns[c].h.wsState == H.Running && |s.a.conns[c].h.queue| + room <= 100
  }

  /** The queue of one websocket gets `m` behind what is in it. */
  ghost function Told(conn: A.Conn, m: H.InternalComm): A.Conn { conn.(h := conn.h.(queue := conn.h.queue + [m])) }

  /** The agent answers with what is stored for the id, and its sender is published. */
  lemma GetsPublished(s: State, c: ConnId, f: FutureId, k: ServerId) returns (b: State)
    requires IsLive(s, c, 0) && f !in s.a.futures && k in s.a.db && k in s.a.unauth && Quiet(s)
    ensures Leads(s, b) && OnlyAgents(s, b) && Quiet(b)
    ensures b.a == s.a.(
      unauth := s.a.unauth - {k}, servers := s.a.servers[k := s.a.unauth[k]],
      futures := s.a.futures[f := A.AuthFuture(c, k, s.a.db[k], A.SendingOk)], hist := b.a.hist)
  {
    hide Leads, Enabled, Apply;
    Stays(s);
    Acts(s, s, A.AuthRes(c, f, k, s.a.db[k]));
    b := s.(a := A.Apply(s.a, A.AuthRes(c, f, k, s.a.db[k])));
    Acts(s, b, A.Validate(f, false));
    b := b.(a := A.Apply(b.a, A.Validate(f, false)));
    Acts(s, b, A.Claim(f));
    b := b.(a := A.Apply(b.a, A.Claim(f)));
    Acts(s, b, A.Publish(f));
    b := b.(a := A.Apply(b.a, A.Publish(f)));
  }

  lemma GetsReplies(s: State, c: ConnId, f: FutureId, pc: A.FuturePc) returns (b: State)
    requires IsLive(s, c, 2) && f in s.a.futures && s.a.futures[f].owner == c && s.a.futures[f].pc == pc
    requires pc == A.SendingOk || pc == A.SendingError
    ensures Leads(s, b) && OnlyAgents(s, b)
    ensures b.a == s.a.(
      conns := s.a.conns[c :=
        if pc == A.SendingOk then Told(Told(s.a.conns[c], H.SendMessage(H.AuthOk)), H.NowAuthenticated)
        else Told(Told(s.a.conns[c], H.SendMessage(H.AuthFailed)), H.CloseConnection)],
      futures := s.a.futures[f := s.a.futures[f].(pc := A.Finished)])
  {
    hide Leads, Enabled, Apply;
    Stays(s);
    Acts(s, s, A.Reply(f));
    b := s.(a := A.Apply(s.a, A.Reply(f)));
    Acts(s, b, A.Reply(f));
    b := b.(a := A.Apply(b.a, A.Reply(f)));
  }

  /** One tick of the internal queue, as long as the handler has not stopped. */
  lemma Ticks(s: State, c: ConnId) returns (b: State)
    requires A.InPhase(s.a, c, A.Live) && s.a.conns[c].h.wsState != H.Stopped && s.a.conns[c].h.queue != []
    ensures Leads(s, b) && OnlyAgents(s, b)
    ensures c in b.a.conns && b.a == s.a.(conns := s.a.conns[c := s.a.conns[c].(h := b.a.conns[c].h)])
    ensures var g, h := s.a.conns[c].h, b.a.conns[c].h;
      && h.queue == g.queue[1..] && h.pinger == g.pinger && h.stop == g.stop
      && h.wsState == (if g.queue[0] == H.ShutDownComplete then H.Stopped else g.wsState)
      && h.authentication == (if g.queue[0] == H.NowAuthenticated then H.Authenticated else g.authentication)
  {
    hide Leads, Enabled, Apply;
    Stays(s);
    Acts(s, s, A.Local(c, A.Drain));
    b := s.(a := A.Apply(s.a, A.Local(c, A.Drain)));
  }

  /** The agent answers with something else than what is stored, and is refused. */
  lemma GetsRefused(s: State, c: ConnId, f: FutureId, p: ServerId, passcode: Passcode) returns (b: State)
    requires IsLive(s, c, 0) && f !in s.a.futures && (p in s.a.db ==> s.a.db[p] != passcode)
    ensures Leads(s, b) && OnlyAgents(s, b)
    ensures b.a == s.a.(futures := s.a.futures[f := A.AuthFuture(c, p, passcode, A.SendingError)])
  {
    hide Leads, Enabled, Apply;
    Stays(s);
    Acts(s, s, A.AuthRes(c, f, p, passcode));
    b := s.(a := A.Apply(s.a, A.AuthRes(c, f, p, passcode)));
    Acts(s, b, A.Validate(f, false));
    b := b.(a := A.Apply(b.a, A.Validate(f, false)));
  }

  /** A pass of the watcher that throws out one agent. */
  lemma GetsExpired(s: State, k: ServerId) returns (b: State)
    requires k in s.a.unauth && IsLive(s, s.a.unauth[k], 1) && s.a.watcher == A.Idle
    ensures Leads(s, b) && OnlyAgents(s, b)
    ensures b.a == s.a.(unauth := s.a.unauth - {k}, hist := b.a.hist,
      conns := s.a.conns[s.a.unauth[k] := Told(s.a.conns[s.a.unauth[k]], H.CloseConnection)])
  {
    hide Leads, Enabled, Apply;
    Stays(s);
    Acts(s, s, A.SweepStart);
    b := s.(a := A.Apply(s.a, A.SweepStart));
    Acts(s, b, A.SweepPop(k));
    b := b.(a := A.Apply(b.a, A.SweepPop(k)));
    Acts(s, b, A.SweepSend);
    b := b.(a := A.Apply(b.a, A.SweepSend));
    Acts(s, b, A.SweepEnd);
    b := b.(a := A.Apply(b.a, A.SweepEnd));
  }

  /** A running handler stops: its agent is taken off the list, and it is told so itself. */
  lemma Shuts(s: State, c: ConnId) returns (b: State)
    requires IsLive(s, c, 1) && s.readers == {}
    ensures Leads(s, b) && OnlyAgents(s, b)
    ensures b.a == s.a.(servers := s.a.servers - {s.a.conns[c].openedAt}, hist := b.a.hist,
      conns := s.a.conns[c := s.a.conns[c].(h := s.a.conns[c].h.(wsState := H.Stopping, stop := H.Reported,
                                             queue := s.a.conns[c].h.queue + [H.ShutDownComplete]))])
  {
    hide Leads, Enabled, Apply;
    Stays(s);
    Acts(s, s, A.Local(c, A.Stop));
    b := s.(a := A.Apply(s.a, A.Local(c, A.Stop)));
    Acts(s, b, A.StopRemove(c));
    b := b.(a := A.Apply(b.a, A.StopRemove(c)));
    Acts(s, b, A.Local(c, A.StopReport));
    b := b.(a := A.Apply(b.a, A.Local(c, A.StopReport)));
  }

  /** A handler that is stopping gets to the end of its queue, and then it may go. */
  lemma {:induction false} Drains(s: State, c: ConnId) returns (b: State)
    requires A.InPhase(s.a, c, A.Live)
    requires s.a.conns[c].h.wsState == H.Stopped ||
             (s.a.conns[c].h.wsState == H.Stopping && H.ShutDownComplete in s.a.conns[c].h.queue)
    ensures Leads(s, b) && OnlyAgents(s, b) && A.InPhase(b.a, c, A.Live) && b.a.conns[c].h.wsState == H.Stopped
    ensures b.a == s.a.(conns := s.a.conns[c := s.a.conns[c].(h := b.a.conns[c].h)])
    decreases |s.a.conns[c].h.queue|
  {
    hide Leads;
    if s.a.conns[c].h.wsState == H.Stopped {
      Stays(s);
      b := s;
    } else {
      var m := Ticks(s, c);
      b := Drains(m, c);
      GoesOn(s, m, b);
    }
  }

  lemma Vanishes(s: State, c: ConnId) returns (b: State)
    requires A.InPhase(s.a, c, A.Live) && s.a.conns[c].h.wsState == H.Stopped
    ensures Leads(s, b) && OnlyAgents(s, b)
    ensures b.a == s.a.(conns := s.a.conns[c := s.a.conns[c].(phase := A.Closed)])
  {
    hide Leads, Enabled, Apply;
    Stays(s);
    Acts(s, s, A.Local(c, A.Stop));
    b := s.(a := A.Apply(s.a, A.Local(c, A.Stop)));
  }

  /** The three messages of a login go out. */
  lemma TicksThrice(s: State, c: ConnId) returns (b: State)
    requires A.InPhase(s.a, c, A.Live) && s.a.conns[c].h.wsState == H.Running && |s.a.conns[c].h.queue| == 3
    requires s.a.conns[c].h.queue[0].SendMessage? && s.a.conns[c].h.queue[1].SendMessage?
    requires s.a.conns[c].h.queue[2] == H.NowAuthenticated
    ensures Leads(s, b) && OnlyAgents(s, b)
    ensures b.a == s.a.(
      conns := s.a.conns[c := s.a.conns[c].(h := s.a.conns[c].h.(queue := [], authentication := H.Authenticated))])
  {
    hide Leads;
    b := Ticks(s, c);
    var m := Ticks(b, c);
    GoesOn(s, b, m);
    b := Ticks(m, c);
    GoesOn(s, m, b);
  }

  // ---------------------------------------------------------------------------------------------
  // How a run can go on
  // ---------------------------------------------------------------------------------------------

  /** An agent with the right passcode logs in, and everybody else stays as they are. */
  lemma LogsIn(run: seq<State>, c: ConnId, f: FutureId, k: ServerId) returns (longer: seq<State>)
    requires IsRun(run)
    requires var s := run[|run| - 1];
      c !in s.a.conns && f !in s.a.futures && k !in s.a.servers && k in s.a.db && Quiet(s)
    ensures IsRun(longer) && run <= longer
    ensures var s, b := run[|run| - 1], longer[|longer| - 1];
      && b.a.servers == s.a.servers[k := c] && b.a.unauth == s.a.unauth - {k} && b.r == s.r
      && b.a.conns == s.a.conns[c := A.Conn(k, A.Live, H.Handler(H.Running, H.Authenticated, 0, [], H.NotSpawned))]
      && Reachable(b, k, 100) && b.base == s.base && b.fits == s.fits
  {
    hide Leads, Init, Next;
    var s := run[|run| - 1];
    var m := ComesIn(s, c, k, true);
    var n := GetsPublished(m, c, f, k);
    GoesOn(s, m, n);
    m := GetsReplies(n, c, f, A.SendingOk);
    GoesOn(s, n, m);
    n := TicksThrice(m, c);
    GoesOn(s, m, n);
    longer := Prolonged(run, n);
  }

  /** From the very start: for every registered id, every metadata reply that survives and every payload with
      a first chunk there is a run in which the agent logs in and a client gets that payload from it. */
  lemma ServedFromNothing(s: State, k: ServerId, file: nat, m: Codec.Metadata, payload: seq<Collector.Item>)
    returns (run: seq<State>)
    requires Init(s) && k in s.a.db && Codec.Survives(s.fits, m) && payload != [] && payload[0].Chunk?
    ensures IsRun(run) && run[0] == s
    ensures var b := run[|run| - 1];
      && R.At(b.r, 0, R.Ended) && O.HasChannel(b.r, 0) && O.ChannelOf(b.r, 0).delivered == payload
      && b.r.tasks[0].fileName == m.fileName && b.r.tasks[0].fileSize == m.fileSize && b.r.registry == map[]
  {
    StartsQuiet(s);
    var login := LogsIn([s], 0, 0, k);
    hide IsRun, Init, Codec.Survives;
    RoomForThree(login[|login| - 1], k);
    run := DownloadIsDelivered(login, 0, k, file, 0, 0, 0, m, 1, 1, 1, payload);
  }

  lemma StartsQuiet(s: State)
    requires Init(s)
    ensures IsRun([s]) && Quiet(s) && s.a.conns == map[] && s.a.futures == map[] && s.a.servers == map[]
    ensures s.r.tasks == map[] && s.r.channels == map[] && s.r.responders == map[] && s.r.registry == map[]
    ensures s.r.used == {} && s.r.lock == None
  {}

  lemma RoomForThree(s: State, k: ServerId)
    requires Reachable(s, k, 100)
    ensures Reachable(s, k, 3)
  {}

  /** An agent that answers with a wrong passcode, or for an id that is not registered, is told so and then
      to close; nobody is published. */
  lemma IsRefused(run: seq<State>, c: ConnId, f: FutureId, k: ServerId, p: ServerId, passcode: Passcode)
    returns (longer: seq<State>)
    requires IsRun(run)
    requires var s := run[|run| - 1];
      && c !in s.a.conns && f !in s.a.futures && k !in s.a.servers && Quiet(s)
      && (p in s.a.db ==> s.a.db[p] != passcode)
    ensures IsRun(longer) && run <= longer
    ensures var s, b := run[|run| - 1], longer[|longer| - 1];
      && b.a.servers == s.a.servers && b.a.unauth == s.a.unauth[k := c] && b.r == s.r && b.a.db == s.a.db
      && b.a.conns.Keys == s.a.conns.Keys + {c}
      && b.a.conns[c].h.queue == [H.SendMessage(H.AuthReq(k)), H.SendMessage(H.AuthFailed), H.CloseConnection]
  {
    hide Leads, Init, Next;
    var s := run[|run| - 1];
    var m := ComesIn(s, c, k, true);
    var n := GetsRefused(m, c, f, p, passcode);
    GoesOn(s, m, n);
    m := GetsReplies(n, c, f, A.SendingError);
    GoesOn(s, n, m);
    longer := Prolonged(run, m);
  }

  /** An agent that does not answer in time is told to close, and is on neither list. */
  lemma IsExpired(run: seq<State>, c: ConnId, k: ServerId) returns (longer: seq<State>)
    requires IsRun(run)
    requires var s := run[|run| - 1];
      c !in s.a.conns && k !in s.a.servers && s.a.watcher == A.Idle && Quiet(s)
    ensures IsRun(longer) && run <= longer
    ensures var s, b := run[|run| - 1], longer[|longer| - 1];
      && b.a.servers == s.a.servers && b.a.unauth == s.a.unauth - {k} && b.r == s.r && b.a.watcher == A.Idle
      && b.a.conns.Keys == s.a.conns.Keys + {c}
      && b.a.conns[c].h.queue == [H.SendMessage(H.AuthReq(k)), H.CloseConnection]
  {
    hide Leads, Init, Next;
    var s := run[|run| - 1];
    var m := ComesIn(s, c, k, true);
    var n := GetsExpired(m, k);
    GoesOn(s, m, n);
    longer := Prolonged(run, n);
  }

  /** A connection that runs can always be brought to its end: the agent is off the list, the handler has
      stopped, and everybody else is as they were. */
  lemma GoesOff(run: seq<State>, c: ConnId) returns (longer: seq<State>)
    requires IsRun(run) && IsLive(run[|run| - 1], c, 1) && run[|run| - 1].readers == {}
    ensures IsRun(longer) && run <= longer
    ensures var s, b := run[|run| - 1], longer[|longer| - 1];
      && b.a.servers == s.a.servers - {s.a.conns[c].openedAt} && b.a.unauth == s.a.unauth && b.r == s.r
      && A.InPhase(b.a, c, A.Closed) && b.a.conns[c].h.wsState == H.Stopped
      && b.a.conns == s.a.conns[c := b.a.conns[c]]
  {
    hide Leads, Init, Next;
    var s := run[|run| - 1];
    var m := Shuts(s, c);
    assert m.a.conns[c].h.queue[|s.a.conns[c].h.queue|] == H.ShutDownComplete;
    var n := Drains(m, c);
    GoesOn(s, m, n);
    m := Vanishes(n, c);
    GoesOn(s, n, m);
    longer := Prolonged(run, m);
  }

  /** A websocket that never starts stays listed as one that waits to be authenticated. */
  lemma NeverStarts(run: seq<State>, c: ConnId, k: ServerId) returns (longer: seq<State>)
    requires IsRun(run)
    requires var s := run[|run| - 1]; c !in s.a.conns && k !in s.a.servers && Quiet(s)
    ensures IsRun(longer) && run <= longer
    ensures var s, b := run[|run| - 1], longer[|longer| - 1];
      A.InPhase(b.a, c, A.Closed) && b.a.unauth == s.a.unauth[k := c] && b.a.servers == s.a.servers
  {
    hide Leads, Init, Next;
    var b := ComesIn(run[|run| - 1], c, k, false);
    longer := Prolonged(run, b);
  }

  /** A future that is dropped after its claim strands the agent: the websocket lives on, is on neither
      list, and never hears of it. */
  lemma IsStranded(run: seq<State>, c: ConnId, f: FutureId, k: ServerId) returns (longer: seq<State>)
    requires IsRun(run)
    requires var s := run[|run| - 1];
      c !in s.a.conns && f !in s.a.futures && k !in s.a.servers && k in s.a.db && Quiet(s)
    ensures IsRun(longer) && run <= longer
    ensures var s, b := run[|run| - 1], longer[|longer| - 1];
      && A.InPhase(b.a, c, A.Live) && b.a.conns[c].h.queue == [H.SendMessage(H.AuthReq(k))]
      && b.a.servers == s.a.servers && b.a.unauth == s.a.unauth - {k} && A.AtPc(b.a, f, A.Finished)
  {
    hide Leads, Init, Next;
    var s := run[|run| - 1];
    var m := ComesIn(s, c, k, true);
    var n := GetsCutOff(m, c, f, k);
    GoesOn(s, m, n);
    longer := Prolonged(run, n);
  }

  lemma GetsCutOff(s: State, c: ConnId, f: FutureId, k: ServerId) returns (b: State)
    requires IsLive(s, c, 0) && f !in s.a.futures && k in s.a.db && k in s.a.unauth && Quiet(s)
    ensures Leads(s, b) && OnlyAgents(s, b)
    ensures b.a == s.a.(
      unauth := s.a.unauth - {k}, futures := s.a.futures[f := A.AuthFuture(c, k, s.a.db[k], A.Finished)],
      hist := b.a.hist)
  {
    hide Leads, Enabled, Apply;
    Stays(s);
    Acts(s, s, A.AuthRes(c, f, k, s.a.db[k]));
    b := s.(a := A.Apply(s.a, A.AuthRes(c, f, k, s.a.db[k])));
    Acts(s, b, A.Validate(f, false));
    b := b.(a := A.Apply(b.a, A.Validate(f, false)));
    Acts(s, b, A.Claim(f));
    b := b.(a := A.Apply(b.a, A.Claim(f)));
    Acts(s, b, A.Cancel(f));
    b := b.(a := A.Apply(b.a, A.Cancel(f)));
  }

  /** A connection may break at any time; its sender stays wherever it is. */
  lemma Breaks(run: seq<State>, c: ConnId) returns (longer: seq<State>)
    requires IsRun(run) && c in run[|run| - 1].a.conns && run[|run| - 1].a.conns[c].phase != A.Closed
    ensures IsRun(longer) && run <= longer
    ensures var s, b := run[|run| - 1], longer[|longer| - 1];
      b.r == s.r && b.a == s.a.(conns := s.a.conns[c := s.a.conns[c].(phase := A.Closed)])
  {
    hide Leads, Init, Next;
    var s := run[|run| - 1];
    Stays(s);
    Acts(s, s, A.Local(c, A.Abandon));
    longer := Prolonged(run, s.(a := A.Apply(s.a, A.Local(c, A.Abandon))));
  }

  /** Once an id has got a new passcode, the old one is refused. */
  lemma OldPasscodeIsRefused(run: seq<State>, c: ConnId, f: FutureId, k: ServerId, passcode: Passcode)
    returns (longer: seq<State>)
    requires IsRun(run)
    requires var s := run[|run| - 1];
      && c !in s.a.conns && f !in s.a.futures && k !in s.a.servers && Quiet(s)
      && k in s.a.db && s.a.db[k] != passcode
    ensures IsRun(longer) && run <= longer
    ensures var s, b := run[|run| - 1], longer[|longer| - 1];
      && b.a.db == s.a.db[k := passcode] && b.a.servers == s.a.servers && c in b.a.conns
      && b.a.conns[c].h.queue == [H.SendMessage(H.AuthReq(k)), H.SendMessage(H.AuthFailed), H.CloseConnection]
  {
    hide Leads, Init, Next;
    var s := run[|run| - 1];
    Stays(s);
    Acts(s, s, A.Rewrite(s.a.db[k := passcode]));
    var m := s.(a := A.Apply(s.a, A.Rewrite(s.a.db[k := passcode])));
    var later := Prolonged(run, m);
    longer := IsRefused(later, c, f, k, k, s.a.db[k]);
  }

  /** As long as the handler has not stopped it can go on pinging, and its number counts the pings. */
  lemma {:induction false} Pings(s: State, c: ConnId, n: nat) returns (b: State)
    requires A.InPhase(s.a, c, A.Live) && s.a.conns[c].h.wsState != H.Stopped
    ensures Leads(s, b) && OnlyAgents(s, b)
    ensures b.a == s.a.(conns := s.a.conns[c := s.a.conns[c].(h := s.a.conns[c].h.(
      pinger := (s.a.conns[c].h.pinger + n) % 0x1_0000_0000_0000_0000))])
  {
    hide Leads, Enabled, Apply;
    if n == 0 {
      Stays(s);
      b := s;
      SameConn(s.a, c);
    } else {
      var m := Pings(s, c, n - 1);
      Acts(s, m, A.Local(c, A.Ping));
      b := m.(a := A.Apply(m.a, A.Local(c, A.Ping)));
      CountsOn(s.a.conns[c].h.pinger, n - 1);
    }
  }

  lemma SameConn(a: A.Agents, c: ConnId)
    requires c in a.conns
    ensures a == a.(conns := a.conns[c := a.conns[c].(h := a.conns[c].h.(
      pinger := (a.conns[c].h.pinger + 0) % 0x1_0000_0000_0000_0000))])
  {
    assert a.conns[c := a.conns[c]] == a.conns;
  }

  lemma CountsOn(p: u64, n: nat)
    ensures ((p + n) % 0x1_0000_0000_0000_0000 + 1) % 0x1_0000_0000_0000_0000 == (p + (n + 1)) % 0x1_0000_0000_0000_0000
  {}
}
