/** Queues over whole runs: they are bounded, and a request that is over is not listened to any more. */
module Queues {
  import opened Common
  import opened Broker
  import opened Runs
  import A = Agents
  import H = Handlers
  import R = Requests
  import Codec
  import Collector

  /** No channel ever holds more than a hundred items: neither those of the websockets ... */
  ghost predicate ConnBounded(a: A.Agents, c: ConnId) { c in a.conns ==> |a.conns[c].h.queue| <= 100 }

  /** ... nor those of the requests. */
  ghost predicate Bounded(r: R.Requests) {
    forall ch :: ch in r.channels ==> |r.channels[ch].queue| <= 100
  }

  /** Whoever is over has no open receiver. */
  ghost predicate HungUp(task: R.Task, channels: map<ChannelId, R.Channel>) {
    && (task.pc == R.Start || task.pc == R.Online ==> task.rx == None)
    && (task.rx.Some? ==>
          task.rx.value in channels && (R.IsOver(task.pc) ==> !channels[task.rx.value].rxOpen))
  }

  ghost predicate Kept(r: R.Requests) {
    Bounded(r) && forall t :: t in r.tasks ==> HungUp(r.tasks[t], r.channels)
  }

  ghost predicate InBounds(s: State) { (forall c :: ConnBounded(s.a, c)) && Kept(s.r) }

  // ---------------------------------------------------------------------------------------------
  // Agents
  // ---------------------------------------------------------------------------------------------

  lemma BoundedActed(a: A.Agents, d: ConnId, act: A.LocalAct, c: ConnId)
    requires A.CanAct(a, d, act) && ConnBounded(a, c)
    ensures ConnBounded(A.WithConn(a, d, A.Acted(a, d, act)), c)
  {}

  lemma BoundedRegistries(a: A.Agents, x: A.Step, c: ConnId)
    requires A.Enabled(a, x) && (x.Admit? || x.StopRemove?) && ConnBounded(a, c)
    ensures ConnBounded(A.Apply(a, x), c)
  {}

  lemma BoundedSent(a: A.Agents, o: ConnId, m: H.InternalComm, c: ConnId)
    requires A.SendCompletes(a, o) && ConnBounded(a, c)
    ensures ConnBounded(A.Sent(a, o, m), c)
  {}

  lemma BoundedReply(a: A.Agents, x: A.Step, c: ConnId)
    requires A.Enabled(a, x) && (x.Reply? || x.SweepSend?) && ConnBounded(a, c)
    ensures ConnBounded(A.Apply(a, x), c)
  {
    hide A.Sent, A.Answer, A.SendCompletes;
    if x.Reply? {
      BoundedSent(a, a.futures[x.f].owner, A.Answer(a.futures[x.f].pc).0, c);
    } else {
      BoundedSent(a, a.watcher.conn, H.CloseConnection, c);
    }
  }

  lemma BoundedElsewhere(a: A.Agents, x: A.Step, c: ConnId)
    requires A.Enabled(a, x) && !x.Local? && !x.Admit? && !x.StopRemove? && !x.Reply? && !x.SweepSend?
    requires ConnBounded(a, c)
    ensures ConnBounded(A.Apply(a, x), c)
  {
    assert A.Apply(a, x).conns == a.conns;
    hide A.Apply, A.Enabled;
  }

  lemma BoundedAgentStep(a: A.Agents, x: A.Step)
    requires A.Enabled(a, x) && forall c :: ConnBounded(a, c)
    ensures forall c :: ConnBounded(A.Apply(a, x), c)
  {
    hide ConnBounded, A.CanAct, A.Acted, A.AfterAdmit, A.AfterStopRemove, A.AfterReply, A.AfterSweepSend;
    forall c ensures ConnBounded(A.Apply(a, x), c) {
      match x
      case Local(d, act) => BoundedActed(a, d, act, c);
      case Admit(_, _) => BoundedRegistries(a, x, c);
      case StopRemove(_) => BoundedRegistries(a, x, c);
      case Reply(_) => BoundedReply(a, x, c);
      case SweepSend => BoundedReply(a, x, c);
      case _ => BoundedElsewhere(a, x, c);
    }
  }

  // ---------------------------------------------------------------------------------------------
  // Requests
  // ---------------------------------------------------------------------------------------------

  lemma KeptTake(r: R.Requests, x: ResponderId)
    requires Kept(r) && R.CanTake(r, x)
    ensures Kept(R.AfterTake(r, x))
  {}

  lemma KeptSend(r: R.Requests, x: ResponderId)
    requires Kept(r) && R.CanSend(r, x)
    ensures Kept(R.AfterSend(r, x))
  {
    hide R.Payload;
  }

  lemma KeptResponder(s: State, step: Step)
    requires Kept(s.r) && Enabled(s, step) && OfResponder(step)
    ensures Kept(Apply(s, step).r)
  {
    hide R.AfterTake, R.AfterSend, R.CanTake, R.CanSend;
    match step
    case Take(x) => KeptTake(s.r, x);
    case Send(x) => KeptSend(s.r, x);
    case _ => KeptElsewhere(s, step);
  }

  lemma KeptElsewhere(s: State, step: Step)
    requires Kept(s.r) && Enabled(s, step) && (step.Arrive? || step.Finish? || step.CancelResponder?)
    ensures Kept(Apply(s, step).r)
  {
    var b := Apply(s, step).r;
    assert b.channels == s.r.channels && b.tasks == s.r.tasks;
    hide Apply, Enabled;
  }

  lemma KeptMove(r: R.Requests, t: TaskId, task: R.Task)
    requires Kept(r) && (task.rx == None || (t in r.tasks && task.rx == r.tasks[t].rx))
    requires task.pc == R.Start || task.pc == R.Online || R.IsOver(task.pc) ==> task.rx == None
    ensures Kept(R.WithTask(r, t, task))
  {
  }

  lemma KeptOver(r: R.Requests, t: TaskId, pc: R.TaskPc)
    requires Kept(r) && t in r.tasks && pc != R.Start && pc != R.Online
    ensures Kept(R.Over(r, t, pc))
  {
    assert HungUp(r.tasks[t], r.channels);
  }

  lemma KeptOpen(r: R.Requests, t: TaskId, rid: RequestId, ch: ChannelId)
    requires Kept(r) && R.CanOpen(r, t, rid, ch)
    ensures Kept(R.AfterOpen(r, t, rid, ch))
  {}

  lemma KeptReceive(r: R.Requests, t: TaskId)
    requires Kept(r) && R.CanReceive(r, t)
    ensures Kept(R.AfterReceive(r, t))
  {
    hide R.OnItem, R.SenderAlive;
    ReadsOn(r.tasks[t], r.channels[r.tasks[t].rx.value]);
  }

  /** Reading never leads back. */
  lemma ReadsOn(task: R.Task, c: R.Channel)
    requires task.pc == R.Waiting || task.pc == R.Collecting || task.pc == R.Streaming
    ensures c.queue != [] ==> R.OnItem(task, c.queue[0]).0 != R.Start && R.OnItem(task, c.queue[0]).0 != R.Online
  {}

  lemma KeptWithdraw(r: R.Requests, t: TaskId)
    requires Kept(r) && R.CanWithdraw(r, t)
    ensures Kept(R.AfterWithdraw(r, t))
  {
    assert HungUp(r.tasks[t], r.channels);
  }

  lemma KeptParse(r: R.Requests, t: TaskId, fits: Bytes -> bool)
    requires Kept(r) && R.At(r, t, R.Parsing)
    ensures Kept(R.AfterParse(r, t, fits))
  {
    hide Kept, R.Over, R.WithTask, Codec.ReadMetadata;
    match Codec.ReadMetadata(fits, r.tasks[t].acc)
    case None => KeptOver(r, t, R.Aborted(R.ParsePanic));
    case Some((name, size)) =>
      KeptMove(r, t, r.tasks[t].(pc := R.Online, second := true, rx := None, fileName := name, fileSize := size));
  }

  lemma KeptRoute(r: R.Requests, t: TaskId, found: Option<ConnId>)
    requires Kept(r) && R.At(r, t, R.Asking)
    ensures Kept(R.AfterRoute(r, t, found))
  {
    hide Kept, R.Over, R.WithTask;
    KeptOver(r, t, R.Aborted(R.LookupPanic));
    KeptMove(r, t, r.tasks[t].(pc := R.Routed, ws := found.GetOr(0)));
  }

  lemma KeptAsk(r: R.Requests, t: TaskId, delivered: bool)
    requires Kept(r) && R.At(r, t, R.Routed)
    ensures Kept(R.AfterAsk(r, t, delivered))
  {
    hide Kept, R.Over, R.WithTask;
    KeptOver(r, t, R.Aborted(if r.tasks[t].second then R.AgentGone else R.SendPanic));
    KeptMove(r, t, r.tasks[t].(pc := R.Waiting));
  }

  lemma KeptReject(r: R.Requests, t: TaskId, delivered: bool)
    requires Kept(r) && R.At(r, t, R.TooLarge)
    ensures Kept(R.AfterReject(r, t, delivered))
  {
    hide Kept, R.Over;
    KeptOver(r, t, R.Aborted(R.SendPanic));
    KeptOver(r, t, R.Exited(Collector.Status(Collector.PAYLOAD_TOO_LARGE)));
  }

  lemma KeptCheck(r: R.Requests, t: TaskId, online: bool)
    requires Kept(r) && R.At(r, t, R.Start)
    ensures Kept(R.AfterCheck(r, t, online))
  {
    assert HungUp(r.tasks[t], r.channels);
    KeptMove(r, t, r.tasks[t].(pc := if online then R.Online else R.NotOnline));
    hide Kept;
  }

  lemma KeptTask(s: State, step: Step)
    requires Kept(s.r) && Enabled(s, step) && OfTask(step)
    ensures Kept(Apply(s, step).r)
  {
    hide Kept, R.Over, R.WithTask, R.AfterCheck, R.AfterOpen, R.AfterReceive, R.AfterWithdraw, R.AfterParse,
      R.AfterRoute, R.AfterAsk, R.AfterReject, R.CanOpen, R.CanReceive, R.CanWithdraw, Found, Question,
      A.Apply, A.Enabled, A.Sent;
    match step
    case Begin(t, kind, agent, file) =>
      KeptMove(s.r, t, R.Task(kind, agent, file, false, 0, None, 0, R.Start, [], [], 0));
    case CheckOnline(t) => KeptCheck(s.r, t, s.r.tasks[t].agent in s.a.servers);
    case OpenRequest(t, rid, ch) => KeptOpen(s.r, t, rid, ch);
    case LookUp(t) => KeptRoute(s.r, t, Found(s, s.r.tasks[t].agent));
    case Ask(t) => KeptAsk(s.r, t, WsOpen(s, t));
    case TimeOut(t) => KeptMove(s.r, t, s.r.tasks[t].(pc := R.Failing(Collector.REQUEST_TIMEOUT)));
    case Receive(t) => KeptReceive(s.r, t);
    case Withdraw(t) => KeptWithdraw(s.r, t);
    case Notify(t) => KeptOver(s.r, t, R.Exited(Collector.Status(s.r.tasks[t].pc.code)));
    case Reject(t) => KeptReject(s.r, t, WsOpen(s, t));
    case Parse(t) => KeptParse(s.r, t, s.fits);
    case Drop(t) => KeptOver(s.r, t, R.Aborted(R.Dropped));
  }

  // ---------------------------------------------------------------------------------------------
  // Over runs
  // ---------------------------------------------------------------------------------------------

  lemma BoundedTold(s: State, step: Step)
    requires Enabled(s, step) && (step.Ask? || step.Notify? || step.Reject?) && forall c :: ConnBounded(s.a, c)
    ensures forall c :: ConnBounded(Apply(s, step).a, c)
  {
    hide ConnBounded, A.Sent, A.SendCompletes, Question;
    forall c ensures ConnBounded(Apply(s, step).a, c) {
      match step
      case Ask(t) => BoundedSent(s.a, s.r.tasks[t].ws, H.SendMessage(Question(s.base, s.r.tasks[t])), c);
      case Notify(t) =>
        BoundedSent(s.a, s.r.tasks[t].ws, H.SendMessage(H.UploadFailed("failed to upload in time")), c);
      case Reject(t) => BoundedSent(s.a, s.r.tasks[t].ws, H.SendMessage(H.UploadFailed("file too large")), c);
    }
  }

  lemma InBoundsStep(s: State, step: Step)
    requires InBounds(s) && Enabled(s, step)
    ensures InBounds(Apply(s, step))
  {
    hide ConnBounded, Kept;
    if step.AgentStep? {
      BoundedAgentStep(s.a, step.s);
    } else if OfResponder(step) {
      AgentsLeft(s, step);
      KeptResponder(s, step);
    } else {
      KeptTask(s, step);
      if step.Ask? || step.Notify? || step.Reject? {
        BoundedTold(s, step);
      } else {
        AgentsLeft(s, step);
      }
    }
  }

  lemma InBoundsNext(s: State, b: State)
    requires InBounds(s) && Next(s, b)
    ensures InBounds(b)
  {
    hide InBounds;
    var step :| Enabled(s, step) && b == Apply(s, step);
    InBoundsStep(s, step);
  }

  lemma {:induction false} InBoundsInRun(run: seq<State>, i: nat)
    requires IsRun(run) && i < |run|
    ensures InBounds(run[i])
  {
    hide InBounds, Next;
    if i == 0 {
      StartsInBounds(run[0]);
    } else {
      InBoundsInRun(run, i - 1);
      InBoundsNext(run[i - 1], run[i]);
    }
  }

  lemma StartsInBounds(s: State)
    requires Init(s)
    ensures InBounds(s)
  {}
}
