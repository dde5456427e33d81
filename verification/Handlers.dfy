/** The websocket handler of one agent: its life cycle, and the token that ends it. */
module Handlers {
  import opened Common

  datatype WsState = Running | Stopping | Stopped
  datatype Authentication = Authenticated | Unauthenticated

  /** Messages that the api sends to an agent. */
  datatype Message =
    | AuthReq(publicId: ServerId)
    | AuthOk
    | AuthFailed
    | MetadataReq(fileId: nat, uploadId: RequestId)
    | UploadTo(fileId: nat, uploadUrl: Bytes)
    | StatusReq(publicId: ServerId, uploadId: RequestId)
    | UploadFailed(reason: string)

  datatype InternalComm = NowAuthenticated | ShutDownComplete | SendMessage(msg: Message) | CloseConnection

  /** The future that `stopping` spawns: take the agent off the list, then report back. */
  datatype StopFuture = NotSpawned | RemovalPending | RemovalDone | Reported

  datatype Handler = Handler(wsState: WsState, authentication: Authentication, pinger: u64,
                             queue: seq<InternalComm>, stop: StopFuture)

  function OnStopping(h: Handler): Handler {
    if h.wsState == Running then h.(wsState := Stopping, stop := RemovalPending) else h
  }

  function OnRemoved(h: Handler): Handler { h.(stop := RemovalDone) }

  function OnReport(h: Handler): Handler { h.(stop := Reported, queue := h.queue + [ShutDownComplete]) }

  /** One tick of the internal queue: at most one item is taken, and none once stopped. */
  function OnDrain(h: Handler): Handler {
    if h.wsState == Stopped || h.queue == [] then h
    else
      var taken := h.(queue := h.queue[1..]);
      match h.queue[0]
      case NowAuthenticated => taken.(authentication := Authenticated)
      case ShutDownComplete => taken.(wsState := Stopped)
      case SendMessage(_) => taken
      case CloseConnection => taken
  }

  function OnPing(h: Handler): Handler {
    if h.wsState == Stopped then h else h.(pinger := (h.pinger + 1) % U64_RANGE)
  }

  function OnReceive(h: Handler, m: InternalComm): Handler { h.(queue := h.queue + [m]) }

  // ---------------------------------------------------------------------------------------------
  // The shutdown token
  // ---------------------------------------------------------------------------------------------

  ghost function One(b: bool): nat { if b then 1 else 0 }

  /** Every place at which the shutdown token can be. */
  ghost function Tokens(h: Handler): nat {
    One(h.stop == RemovalPending) + One(h.stop == RemovalDone)
    + multiset(h.queue)[ShutDownComplete] + One(h.wsState == Stopped)
  }

  /** A running handler has no token, and one that has left that state has exactly one. */
  ghost predicate TokenKept(h: Handler) {
    && Tokens(h) == One(h.wsState != Running)
    && (h.wsState == Running <==> h.stop == NotSpawned)
  }

  /** States are only left forward. */
  function Rank(s: WsState): nat {
    match s case Running => 0 case Stopping => 1 case Stopped => 2
  }

  lemma StoppingKeepsToken(h: Handler)
    requires TokenKept(h)
    ensures TokenKept(OnStopping(h)) && Rank(h.wsState) <= Rank(OnStopping(h).wsState)
  {}

  lemma RemovedKeepsToken(h: Handler)
    requires TokenKept(h) && h.stop == RemovalPending
    ensures TokenKept(OnRemoved(h))
  {}

  lemma ReportKeepsToken(h: Handler)
    requires TokenKept(h) && h.stop == RemovalDone
    ensures TokenKept(OnReport(h))
  {}

  lemma ReceiveKeepsToken(h: Handler, m: InternalComm)
    requires TokenKept(h) && m != ShutDownComplete
    ensures TokenKept(OnReceive(h, m))
  {}

  lemma DrainKeepsToken(h: Handler)
    requires TokenKept(h)
    ensures TokenKept(OnDrain(h)) && Rank(h.wsState) <= Rank(OnDrain(h).wsState)
    ensures OnDrain(h).wsState == Stopped ==> h.stop == Reported
    ensures h.wsState == Stopped ==> OnDrain(h) == h
  {
    if h.queue != [] {
      assert h.queue == [h.queue[0]] + h.queue[1..];
    }
  }

  /** The handler as the program has it: fields that the actor's callbacks update. */
  class WsHandler {
    var wsState: WsState
    var authentication: Authentication
    var pinger: u64
    var queue: seq<InternalComm>
    var stop: StopFuture
    const id: ServerId

    ghost function View(): Handler
      reads this
    {
      Handler(wsState, authentication, pinger, queue, stop)
    }

    ghost predicate Valid()
      reads this
    {
      TokenKept(View())
    }

    /** The handler starts with the request for authentication already queued. */
    constructor (id: ServerId)
      ensures Valid() && this.id == id
      ensures View() == Handler(Running, Unauthenticated, 0, [SendMessage(AuthReq(id))], NotSpawned)
    {
      this.id := id;
      wsState, authentication, pinger, stop := Running, Unauthenticated, 0, NotSpawned;
      queue := [SendMessage(AuthReq(id))];
    }

    /** The actor asks whether it may stop; only a stopped handler says yes. */
    method Stopping() returns (mayStop: bool, spawned: bool)
      requires Valid()
      modifies this
      ensures Valid() && View() == OnStopping(old(View()))
      ensures mayStop <==> old(wsState) == Stopped
      ensures spawned <==> old(wsState) == Running
      ensures spawned ==> wsState == WsState.Stopping && stop == RemovalPending
      ensures !spawned ==> View() == old(View())
      ensures mayStop ==> stop == Reported
    {
      StoppingKeepsToken(View());
      match wsState {
        case Running =>
          wsState := WsState.Stopping;
          stop := RemovalPending;
          return false, true;
        case Stopping =>
          return false, false;
        case Stopped =>
          return true, false;
      }
    }

    /** One tick of the internal queue. `written` is what goes out on the websocket. */
    method InternalComms() returns (written: Option<Message>, closing: bool)
      requires Valid()
      modifies this
      ensures Valid() && View() == OnDrain(old(View()))
      ensures old(wsState) == Stopped ==> View() == old(View()) && written == None && !closing
      ensures old(wsState) != Stopped && old(queue) != [] ==>
        && queue == old(queue)[1..]
        && (closing <==> old(queue)[0] == CloseConnection)
        && written == (if old(queue)[0].SendMessage? then Some(old(queue)[0].msg) else None)
        && authentication == (if old(queue)[0] == NowAuthenticated then Authenticated else old(authentication))
        && wsState == (if old(queue)[0] == ShutDownComplete then Stopped else old(wsState))
      ensures pinger == old(pinger) && stop == old(stop)
      ensures wsState == Stopped ==> stop == Reported
    {
      DrainKeepsToken(View());
      written, closing := None, false;
      if wsState == Stopped || queue == [] {
        return;
      }
      var m := queue[0];
      queue := queue[1..];
      match m {
        case NowAuthenticated => authentication := Authenticated;
        case CloseConnection => closing := true;
        case ShutDownComplete => wsState := Stopped;
        case SendMessage(msg) => written := Some(msg);
      }
    }

    method PingPong() returns (ping: Option<u64>)
      requires Valid()
      modifies this`pinger
      ensures Valid() && View() == OnPing(old(View()))
      ensures ping == if wsState == Stopped then None else Some(old(pinger))
      ensures wsState == Stopped ==> pinger == old(pinger)
      ensures wsState != Stopped ==>
        pinger == if old(pinger) == 0xFFFF_FFFF_FFFF_FFFF then 0 else old(pinger) + 1
    {
      if wsState == Stopped {
        return None;
      }
      ping := Some(pinger);
      pinger := (pinger + 1) % U64_RANGE;
    }
  }
}
