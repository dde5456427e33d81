/**
  The whole broker: agents and requests side by side, joined by the registry `servers`, its read
  guards, and the queues of the agents' websockets.
*/
module Broker {
  import opened Common
  import H = Handlers
  import A = Agents
  import AS = AgentSafety
  import R = Requests
  import RS = RequestSafety
  import Codec
  import Collector

  /** `readers` are the tasks that hold a read guard of `servers`; `base` is the configured url, and
      `fits` tells which numbers the JSON reader does not refuse as too large. */
  datatype State = State(a: A.Agents, r: R.Requests, readers: set<TaskId>, base: Bytes, fits: Bytes -> bool)

  datatype Step =
    | AgentStep(s: A.Step)
    | Arrive(x: ResponderId, target: RequestId, reply: R.Reply)
    | Take(x: ResponderId)
    | Send(x: ResponderId)
    | Finish(x: ResponderId)
    | CancelResponder(x: ResponderId)
    | Begin(t: TaskId, kind: R.Kind, agent: ServerId, file: nat)
    | CheckOnline(t: TaskId)
    | OpenRequest(t: TaskId, rid: RequestId, ch: ChannelId)
    | LookUp(t: TaskId)
    | Ask(t: TaskId)
    | TimeOut(t: TaskId)
    | Receive(t: TaskId)
    | Withdraw(t: TaskId)
    | Notify(t: TaskId)
    | Reject(t: TaskId)
    | Parse(t: TaskId)
    | Drop(t: TaskId)

  ghost predicate Init(s: State) { A.Init(s.a) && R.Init(s.r) && s.readers == {} }

  /** The stretch of a handler during which its first read guard is alive. */
  predicate HoldsGuard(pc: R.TaskPc) {
    pc == R.Online || pc == R.Asking || pc == R.Routed || pc == R.Waiting || pc.Failing? || pc.Failed?
    || pc == R.Collecting || pc == R.TooLarge || pc == R.Parsing
  }

  /** The stretch during which the task uses the sender it looked up. */
  predicate HasSender(pc: R.TaskPc) {
    pc == R.Routed || pc == R.Waiting || pc.Failing? || pc.Failed? || pc == R.Collecting || pc == R.TooLarge
  }

  /** What the task asks the agent for. */
  function Question(base: Bytes, task: R.Task): H.Message {
    if task.kind == R.ForStatus then H.StatusReq(task.agent, task.rid)
    else if task.kind == R.ForDownload && task.second then H.UploadTo(task.file, Codec.UploadUrl(base, task.rid))
    else H.MetadataReq(task.file, task.rid)
  }

  predicate CanTell(s: State, t: TaskId) { t in s.r.tasks && A.SendCompletes(s.a, s.r.tasks[t].ws) }

  predicate WsOpen(s: State, t: TaskId)
    requires CanTell(s, t)
  {
    s.a.conns[s.r.tasks[t].ws].phase != A.Closed
  }

  predicate Enabled(s: State, step: Step) {
    match step
    case AgentStep(x) => A.Enabled(s.a, x) && (A.WritesServers(x) ==> s.readers == {})
    case Arrive(x, _, _) => R.CanArrive(s.r, x)
    case Take(x) => R.CanTake(s.r, x)
    case Send(x) => R.CanSend(s.r, x)
    case Finish(x) => R.CanFinish(s.r, x)
    case CancelResponder(x) => R.CanCancel(s.r, x)
    case Begin(t, _, _, _) => t !in s.r.tasks
    case CheckOnline(t) => R.At(s.r, t, R.Start)
    case OpenRequest(t, rid, ch) => R.CanOpen(s.r, t, rid, ch)
    case LookUp(t) => R.At(s.r, t, R.Asking)
    case Ask(t) => R.At(s.r, t, R.Routed) && CanTell(s, t)
    case TimeOut(t) => R.At(s.r, t, R.Waiting)
    case Receive(t) => R.CanReceive(s.r, t)
    case Withdraw(t) => R.CanWithdraw(s.r, t)
    case Notify(t) => t in s.r.tasks && s.r.tasks[t].pc.Failed? && CanTell(s, t)
    case Reject(t) => R.At(s.r, t, R.TooLarge) && CanTell(s, t)
    case Parse(t) => R.At(s.r, t, R.Parsing)
    case Drop(t) => t in s.r.tasks && !R.IsOver(s.r.tasks[t].pc)
  }

  /** A task has moved: its guard is alive or has been dropped accordingly. */
  function Moved(s: State, t: TaskId, r: R.Requests): State {
    s.(r := r, readers := if t in r.tasks && HoldsGuard(r.tasks[t].pc) then s.readers + {t} else s.readers - {t})
  }

  /** ... and it has told its agent something on the way. */
  function Told(s: State, t: TaskId, m: H.Message, r: R.Requests): State
    requires CanTell(s, t)
  {
    Moved(s, t, r).(a := A.Sent(s.a, s.r.tasks[t].ws, H.SendMessage(m)))
  }

  function Found(s: State, k: ServerId): Option<ConnId> {
    if k in s.a.servers then Some(s.a.servers[k]) else None
  }

  function Apply(s: State, step: Step): State
    requires Enabled(s, step)
  {
    match step
    case AgentStep(x) => s.(a := A.Apply(s.a, x))
    case Arrive(x, target, reply) => s.(r := R.AfterArrive(s.r, x, target, reply))
    case Take(x) => s.(r := R.AfterTake(s.r, x))
    case Send(x) => s.(r := R.AfterSend(s.r, x))
    case Finish(x) => s.(r := R.AfterFinish(s.r, x))
    case CancelResponder(x) => s.(r := R.AfterCancel(s.r, x))
    case Begin(t, kind, agent, file) => Moved(s, t, R.AfterBegin(s.r, t, kind, agent, file))
    case CheckOnline(t) => Moved(s, t, R.AfterCheck(s.r, t, s.r.tasks[t].agent in s.a.servers))
    case OpenRequest(t, rid, ch) => Moved(s, t, R.AfterOpen(s.r, t, rid, ch))
    case LookUp(t) => Moved(s, t, R.AfterRoute(s.r, t, Found(s, s.r.tasks[t].agent)))
    case Ask(t) => Told(s, t, Question(s.base, s.r.tasks[t]), R.AfterAsk(s.r, t, WsOpen(s, t)))
    case TimeOut(t) => Moved(s, t, R.AfterTimeout(s.r, t))
    case Receive(t) => Moved(s, t, R.AfterReceive(s.r, t))
    case Withdraw(t) => Moved(s, t, R.AfterWithdraw(s.r, t))
    case Notify(t) => Told(s, t, H.UploadFailed("failed to upload in time"), R.AfterNotify(s.r, t))
    case Reject(t) => Told(s, t, H.UploadFailed("file too large"), R.AfterReject(s.r, t, WsOpen(s, t)))
    case Parse(t) => Moved(s, t, R.AfterParse(s.r, t, s.fits))
    case Drop(t) => Moved(s, t, R.AfterDrop(s.r, t))
  }

  // ---------------------------------------------------------------------------------------------
  // Guards
  // ---------------------------------------------------------------------------------------------

  /** While a task holds its guard its agent stays logged in, with the sender that was looked up. */
  ghost predicate Guarded(s: State, t: TaskId) {
    && (t in s.readers <==> t in s.r.tasks && HoldsGuard(s.r.tasks[t].pc))
    && (t in s.r.tasks ==>
      var task := s.r.tasks[t];
      && (HoldsGuard(task.pc) ==> task.agent in s.a.servers)
      && (HasSender(task.pc) ==> s.a.servers[task.agent] == task.ws)
      && task.pc != R.Aborted(R.LookupPanic))
  }

  ghost predicate Inv(s: State) {
    AS.Safe(s.a) && RS.Sound(s.r) && forall t :: Guarded(s, t)
  }

  lemma InvInit(s: State)
    requires Init(s)
    ensures Inv(s)
  {
    AS.SafeInit(s.a);
    RS.SoundInit(s.r);
  }

  /** A step of another task, or one that leaves `servers` alone, does not touch the guard of `t`. */
  lemma GuardFrame(s: State, b: State, t: TaskId)
    requires Guarded(s, t)
    requires b.a.servers == s.a.servers || (b.r == s.r && b.readers == s.readers == {})
    requires (t in b.r.tasks <==> t in s.r.tasks) && (t in b.readers <==> t in s.readers)
    requires t in s.r.tasks ==> b.r.tasks[t] == s.r.tasks[t]
    ensures Guarded(b, t)
  {}

  lemma ServersLeft(a: A.Agents, x: A.Step)
    requires A.Enabled(a, x) && !A.WritesServers(x)
    ensures A.Apply(a, x).servers == a.servers
  {
    hide A.Acted, A.CanAct, A.Answer, H.OnReceive;
  }

  lemma GuardedAgentStep(s: State, x: A.Step, t: TaskId)
    requires Guarded(s, t) && Enabled(s, AgentStep(x))
    ensures Guarded(Apply(s, AgentStep(x)), t)
  {
    if !A.WritesServers(x) {
      ServersLeft(s.a, x);
    }
    hide A.Apply, A.Enabled, Guarded;
    GuardFrame(s, Apply(s, AgentStep(x)), t);
  }

  predicate OfResponder(step: Step) {
    step.Arrive? || step.Take? || step.Send? || step.Finish? || step.CancelResponder?
  }

  predicate OfTask(step: Step) { !step.AgentStep? && !OfResponder(step) }

  lemma TasksLeft(s: State, step: Step)
    requires Enabled(s, step) && OfResponder(step)
    ensures Apply(s, step).r.tasks == s.r.tasks && Apply(s, step) == s.(r := Apply(s, step).r)
  {}

  lemma GuardedResponder(s: State, step: Step, t: TaskId)
    requires Guarded(s, t) && Enabled(s, step) && OfResponder(step)
    ensures Guarded(Apply(s, step), t)
  {
    TasksLeft(s, step);
    hide Apply, Enabled, Guarded;
    GuardFrame(s, Apply(s, step), t);
  }

  /** The shape of every step of a task: one task moves, and its guard with it. */
  ghost predicate OneTask(s: State, b: State, t: TaskId) {
    && t in b.r.tasks && b.r.tasks == s.r.tasks[t := b.r.tasks[t]]
    && b.a.servers == s.a.servers
    && b.readers == (if HoldsGuard(b.r.tasks[t].pc) then s.readers + {t} else s.readers - {t})
  }

  lemma GuardedOthers(s: State, b: State, t: TaskId, z: TaskId)
    requires Guarded(s, z) && OneTask(s, b, t) && z != t
    ensures Guarded(b, z)
  {
    hide Guarded;
    GuardFrame(s, b, z);
  }

  /** Where a task may get to in one step, as far as its guard is concerned. */
  ghost predicate KeepsCourse(s: State, b: State, t: TaskId) {
    && OneTask(s, b, t)
    && var pc := b.r.tasks[t].pc;
      && (t in s.r.tasks ==> b.r.tasks[t].agent == s.r.tasks[t].agent)
      && (HoldsGuard(pc) ==> t in s.r.tasks && (HoldsGuard(s.r.tasks[t].pc) || s.r.tasks[t].agent in s.a.servers))
      && (HasSender(pc) ==>
           || (t in s.r.tasks && HasSender(s.r.tasks[t].pc) && b.r.tasks[t].ws == s.r.tasks[t].ws)
           || Some(b.r.tasks[t].ws) == Found(s, b.r.tasks[t].agent))
      && (pc == R.Aborted(R.LookupPanic) ==>
           t in s.r.tasks && s.r.tasks[t].pc == R.Asking && s.r.tasks[t].agent !in s.a.servers)
  }

  lemma GuardedOwn(s: State, b: State, t: TaskId)
    requires Guarded(s, t) && KeepsCourse(s, b, t)
    ensures Guarded(b, t)
  {}

  lemma CourseBegin(s: State, t: TaskId, kind: R.Kind, agent: ServerId, file: nat)
    requires t !in s.r.tasks
    ensures KeepsCourse(s, Moved(s, t, R.AfterBegin(s.r, t, kind, agent, file)), t)
  {}

  lemma CourseCheck(s: State, t: TaskId)
    requires R.At(s.r, t, R.Start)
    ensures KeepsCourse(s, Moved(s, t, R.AfterCheck(s.r, t, s.r.tasks[t].agent in s.a.servers)), t)
  {}

  lemma CourseOpen(s: State, t: TaskId, rid: RequestId, ch: ChannelId)
    requires R.CanOpen(s.r, t, rid, ch)
    ensures KeepsCourse(s, Moved(s, t, R.AfterOpen(s.r, t, rid, ch)), t)
  {}

  lemma CourseLookUp(s: State, t: TaskId)
    requires R.At(s.r, t, R.Asking)
    ensures KeepsCourse(s, Moved(s, t, R.AfterRoute(s.r, t, Found(s, s.r.tasks[t].agent))), t)
  {}

  lemma CourseAsk(s: State, t: TaskId, delivered: bool)
    requires R.At(s.r, t, R.Routed)
    ensures KeepsCourse(s, Moved(s, t, R.AfterAsk(s.r, t, delivered)), t)
  {}

  lemma CourseTimeOut(s: State, t: TaskId)
    requires R.At(s.r, t, R.Waiting)
    ensures KeepsCourse(s, Moved(s, t, R.AfterTimeout(s.r, t)), t)
  {}

  lemma ItemsKeepCourse(task: R.Task, x: Collector.Item)
    requires task.pc == R.Waiting || task.pc == R.Collecting || task.pc == R.Streaming
    ensures HoldsGuard(R.OnItem(task, x).0) ==> HoldsGuard(task.pc)
    ensures HasSender(R.OnItem(task, x).0) ==> HasSender(task.pc)
    ensures !R.OnItem(task, x).0.Aborted?
    ensures HoldsGuard(R.OnClose(task)) ==> HoldsGuard(task.pc)
    ensures HasSender(R.OnClose(task)) ==> HasSender(task.pc)
    ensures !R.OnClose(task).Aborted?
  {
    hide R.Limit, R.Collects;
  }

  lemma CourseReceive(s: State, t: TaskId)
    requires R.CanReceive(s.r, t)
    ensures KeepsCourse(s, Moved(s, t, R.AfterReceive(s.r, t)), t)
  {
    var task := s.r.tasks[t];
    var queue := s.r.channels[task.rx.value].queue;
    ItemsKeepCourse(task, if queue == [] then Collector.Broken else queue[0]);
    hide R.OnItem, R.OnClose, HoldsGuard, HasSender;
  }

  lemma CourseWithdraw(s: State, t: TaskId)
    requires R.CanWithdraw(s.r, t)
    ensures KeepsCourse(s, Moved(s, t, R.AfterWithdraw(s.r, t)), t)
  {}

  lemma CourseOver(s: State, t: TaskId, pc: R.TaskPc)
    requires t in s.r.tasks && R.IsOver(pc) && pc != R.Aborted(R.LookupPanic)
    ensures KeepsCourse(s, Moved(s, t, R.Over(s.r, t, pc)), t)
  {}

  lemma CourseParse(s: State, t: TaskId)
    requires R.At(s.r, t, R.Parsing)
    ensures KeepsCourse(s, Moved(s, t, R.AfterParse(s.r, t, s.fits)), t)
  {
    hide Codec.ReadMetadata;
    if Codec.ReadMetadata(s.fits, s.r.tasks[t].acc).None? {
      CourseOver(s, t, R.Aborted(R.ParsePanic));
    }
  }

  lemma CourseReject(s: State, t: TaskId, delivered: bool)
    requires R.At(s.r, t, R.TooLarge)
    ensures KeepsCourse(s, Moved(s, t, R.AfterReject(s.r, t, delivered)), t)
  {
    hide R.Over, Moved, KeepsCourse;
    CourseOver(s, t, R.Exited(Collector.Status(Collector.PAYLOAD_TOO_LARGE)));
    CourseOver(s, t, R.Aborted(R.SendPanic));
  }

  lemma CourseTold(s: State, t: TaskId, m: H.Message, r: R.Requests)
    requires CanTell(s, t) && KeepsCourse(s, Moved(s, t, r), t)
    ensures KeepsCourse(s, Told(s, t, m, r), t)
  {
    assert Told(s, t, m, r).a.servers == s.a.servers;
    hide HoldsGuard, HasSender, A.Sent;
  }

  lemma CourseKept(s: State, step: Step)
    requires Enabled(s, step) && OfTask(step)
    ensures KeepsCourse(s, Apply(s, step), step.t)
  {
    hide KeepsCourse, Moved, Told, Question, Found, R.AfterBegin, R.AfterCheck, R.AfterOpen, R.AfterRoute, R.AfterAsk,
      R.AfterTimeout, R.AfterReceive, R.AfterWithdraw, R.AfterReject, R.AfterParse, R.Over, R.CanOpen, R.CanReceive,
      R.CanWithdraw, A.Apply, A.Enabled;
    match step
    case Begin(t, kind, agent, file) => CourseBegin(s, t, kind, agent, file);
    case CheckOnline(t) => CourseCheck(s, t);
    case OpenRequest(t, rid, ch) => CourseOpen(s, t, rid, ch);
    case LookUp(t) => CourseLookUp(s, t);
    case Ask(t) =>
      CourseAsk(s, t, WsOpen(s, t));
      CourseTold(s, t, Question(s.base, s.r.tasks[t]), R.AfterAsk(s.r, t, WsOpen(s, t)));
    case TimeOut(t) => CourseTimeOut(s, t);
    case Receive(t) => CourseReceive(s, t);
    case Withdraw(t) => CourseWithdraw(s, t);
    case Notify(t) =>
      CourseOver(s, t, R.Exited(Collector.Status(s.r.tasks[t].pc.code)));
      CourseTold(s, t, H.UploadFailed("failed to upload in time"), R.AfterNotify(s.r, t));
    case Reject(t) =>
      CourseReject(s, t, WsOpen(s, t));
      CourseTold(s, t, H.UploadFailed("file too large"), R.AfterReject(s.r, t, WsOpen(s, t)));
    case Parse(t) => CourseParse(s, t);
    case Drop(t) => CourseOver(s, t, R.Aborted(R.Dropped));
  }

  lemma GuardedStep(s: State, step: Step, z: TaskId)
    requires Guarded(s, z) && Enabled(s, step)
    ensures Guarded(Apply(s, step), z)
  {
    if step.AgentStep? {
      GuardedAgentStep(s, step.s, z);
    } else if OfResponder(step) {
      GuardedResponder(s, step, z);
    } else {
      CourseKept(s, step);
      hide Enabled, Apply, Guarded;
      if z == step.t {
        hide KeepsCourse;
        GuardedOwn(s, Apply(s, step), z);
      } else {
        GuardedOthers(s, Apply(s, step), step.t, z);
      }
    }
  }

  // ---------------------------------------------------------------------------------------------
  // Both halves
  // ---------------------------------------------------------------------------------------------

  /** A message from a task is one more thing in a queue. */
  lemma SafeSent(a: A.Agents, c: ConnId, m: H.Message)
    requires AS.Safe(a) && c in a.conns
    ensures AS.Safe(A.Sent(a, c, H.SendMessage(m)))
  {
    var b := A.Sent(a, c, H.SendMessage(m));
    assert b == a.(conns := b.conns);
    AS.FiledSent(a, c, H.SendMessage(m));
    hide A.Sent, AS.Filed, AS.Balanced, AS.Authorised, AS.HandlerKept, AS.Unheard;
    forall d ensures AS.Balanced(b, d) { AS.BalancedSent(a, c, H.SendMessage(m), d); }
    forall k ensures AS.Authorised(b, k) { AS.AuthorisedFrame(a, b, k); }
    forall d ensures AS.HandlerKept(b, d) && AS.Unheard(b, d) { AS.HandlerKeptSent(a, c, H.SendMessage(m), d); }
  }

  lemma SafeHalf(s: State, step: Step)
    requires AS.Safe(s.a) && Enabled(s, step)
    ensures AS.Safe(Apply(s, step).a)
  {
    hide AS.Safe, A.Apply, A.Enabled, A.Sent, Question;
    match step
    case AgentStep(x) => AS.SafeStep(s.a, x);
    case Ask(t) => SafeSent(s.a, s.r.tasks[t].ws, Question(s.base, s.r.tasks[t]));
    case Notify(t) => SafeSent(s.a, s.r.tasks[t].ws, H.UploadFailed("failed to upload in time"));
    case Reject(t) => SafeSent(s.a, s.r.tasks[t].ws, H.UploadFailed("file too large"));
    case _ =>
  }

  lemma SoundHalf(s: State, step: Step)
    requires RS.Sound(s.r) && Enabled(s, step)
    ensures RS.Sound(Apply(s, step).r)
  {
    hide RS.Sound, A.Apply, A.Enabled, A.Sent, Question, R.AfterArrive, R.AfterTake, R.AfterSend, R.AfterFinish,
      R.AfterCancel, R.AfterBegin, R.AfterCheck, R.AfterOpen, R.AfterRoute, R.AfterAsk, R.AfterTimeout, R.AfterReceive,
      R.AfterWithdraw, R.AfterReject, R.AfterParse, R.Over, R.CanOpen, R.CanReceive, R.CanSend;
    match step
    case AgentStep(_) =>
    case Arrive(x, target, reply) => RS.SoundArrive(s.r, x, target, reply);
    case Take(x) => RS.SoundTake(s.r, x);
    case Send(x) => RS.SoundSend(s.r, x);
    case Finish(x) => RS.SoundFinish(s.r, x);
    case CancelResponder(x) => RS.SoundCancel(s.r, x);
    case Begin(t, kind, agent, file) => RS.SoundBegin(s.r, t, kind, agent, file);
    case CheckOnline(t) => RS.SoundCheck(s.r, t, s.r.tasks[t].agent in s.a.servers);
    case OpenRequest(t, rid, ch) => RS.SoundOpen(s.r, t, rid, ch);
    case LookUp(t) => RS.SoundRoute(s.r, t, Found(s, s.r.tasks[t].agent));
    case Ask(t) => RS.SoundAsk(s.r, t, WsOpen(s, t));
    case TimeOut(t) => RS.SoundTimeout(s.r, t);
    case Receive(t) => RS.SoundReceive(s.r, t);
    case Withdraw(t) => RS.SoundWithdraw(s.r, t);
    case Notify(t) => RS.SoundExit(s.r, t, s.r.tasks[t].pc.code);
    case Reject(t) => RS.SoundReject(s.r, t, WsOpen(s, t));
    case Parse(t) => RS.SoundParse(s.r, t, s.fits);
    case Drop(t) => RS.SoundAbort(s.r, t, R.Dropped);
  }

  lemma InvStep(s: State, step: Step)
    requires Inv(s) && Enabled(s, step)
    ensures Inv(Apply(s, step))
  {
    SafeHalf(s, step);
    SoundHalf(s, step);
    hide AS.Safe, RS.Sound, Guarded, Apply, Enabled;
    forall t ensures Guarded(Apply(s, step), t) {
      GuardedStep(s, step, t);
    }
  }
}
