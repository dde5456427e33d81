/** A client that gives up and an upload that has just begun can wait for each other for ever. */
module Deadlocks {
  import opened Common
  import opened Collector
  import opened Broker
  import opened Runs
  import opened Service
  import A = Agents
  import AS = AgentSafety
  import R = Requests
  import RS = RequestSafety
  import O = Outcomes
  import D = Delivery
  import Codec

  /** The task wants the registry of requests, to withdraw its own; the responder holds that registry while it
      waits for room in the task's channel. */
  ghost predicate Stuck(r: R.Requests, t: TaskId, x: ResponderId) {
    && O.HasChannel(r, t) && r.tasks[t].pc.Failing? && x in r.responders && r.lock == Some(x)
    && r.responders[x].pc == R.Sending(r.tasks[t].rx.value)
    && r.responders[x].sent < |R.Payload(r.responders[x].reply)|
    && O.ChannelOf(r, t).rxOpen && |O.ChannelOf(r, t).queue| >= 100
  }

  /** Only if the upload is broken off, or the client goes away, do they get out of it. */
  predicate Frees(step: Step, t: TaskId, x: ResponderId) { step == CancelResponder(x) || step == Drop(t) }

  lemma StuckResponder(s: State, step: Step, t: TaskId, x: ResponderId)
    requires Stuck(s.r, t, x) && Enabled(s, step) && OfResponder(step) && !Frees(step, t, x) && RS.Sound(s.r)
    ensures Stuck(Apply(s, step).r, t, x)
  {
    assert RS.ResponderOk(s.r, step.x);
    hide R.Payload, RS.Sound;
  }

  /** Another task's step touches neither this task nor its channel. */
  lemma StuckBeside(r: R.Requests, b: R.Requests, t: TaskId, x: ResponderId)
    requires Stuck(r, t, x) && O.HasChannel(b, t) && b.tasks[t] == r.tasks[t]
    requires O.ChannelOf(b, t).rxOpen && O.ChannelOf(b, t).queue == O.ChannelOf(r, t).queue
    requires b.responders == r.responders && b.lock == r.lock
    ensures Stuck(b, t, x)
  {
    hide R.Payload;
  }

  ghost predicate Own(r: R.Requests, b: R.Requests, t: TaskId) { RS.OwnBusiness(r, b, t) }

  lemma OwnMove(r: R.Requests, u: TaskId, task: R.Task)
    ensures Own(r, R.WithTask(r, u, task), u)
  {}

  lemma OwnOver(r: R.Requests, u: TaskId, pc: R.TaskPc)
    requires RS.Sound(r) && u in r.tasks
    ensures Own(r, R.Over(r, u, pc), u)
  {
    assert RS.TaskOk(r, u);
    hide RS.Sound, R.Over, RS.OwnBusiness;
    RS.OwnOver(r, u, pc);
  }

  lemma OwnReceive(r: R.Requests, u: TaskId)
    requires RS.Sound(r) && R.CanReceive(r, u)
    ensures Own(r, R.AfterReceive(r, u), u)
  {
    assert RS.TaskOk(r, u);
    hide RS.Sound, R.AfterReceive, RS.OwnBusiness;
    RS.OwnReceive(r, u);
  }

  lemma OwnParse(r: R.Requests, u: TaskId, fits: Bytes -> bool)
    requires RS.Sound(r) && R.At(r, u, R.Parsing)
    ensures Own(r, R.AfterParse(r, u, fits), u)
  {
    hide RS.Sound, R.Over, R.WithTask, Own, Codec.ReadMetadata;
    OwnOver(r, u, R.Aborted(R.ParsePanic));
    match Codec.ReadMetadata(fits, r.tasks[u].acc)
    case None =>
    case Some((name, size)) =>
      OwnMove(r, u, r.tasks[u].(pc := R.Online, second := true, rx := None, fileName := name, fileSize := size));
  }

  /** While somebody holds the registry, a step of a task concerns that task and its own channel alone. */
  lemma OwnStep(s: State, step: Step)
    requires RS.Sound(s.r) && Enabled(s, step) && OfTask(step) && s.r.lock.Some?
    ensures Own(s.r, Apply(s, step).r, step.t)
  {
    hide Own, RS.Sound, R.Over, R.WithTask, R.AfterReceive, R.AfterParse, R.CanReceive, Found, Question,
      A.Apply, A.Enabled, A.Sent;
    var r := s.r;
    match step
    case Begin(t, kind, agent, file) =>
      OwnMove(r, t, R.Task(kind, agent, file, false, 0, None, 0, R.Start, [], [], 0));
    case CheckOnline(t) =>
      OwnMove(r, t, r.tasks[t].(pc := if r.tasks[t].agent in s.a.servers then R.Online else R.NotOnline));
    case LookUp(t) =>
      OwnOver(r, t, R.Aborted(R.LookupPanic));
      OwnMove(r, t, r.tasks[t].(pc := R.Routed, ws := Found(s, r.tasks[t].agent).GetOr(0)));
    case Ask(t) =>
      OwnOver(r, t, R.Aborted(if r.tasks[t].second then R.AgentGone else R.SendPanic));
      OwnMove(r, t, r.tasks[t].(pc := R.Waiting));
    case TimeOut(t) => OwnMove(r, t, r.tasks[t].(pc := R.Failing(408)));
    case Receive(t) => OwnReceive(r, t);
    case Notify(t) => OwnOver(r, t, R.Exited(Status(r.tasks[t].pc.code)));
    case Reject(t) =>
      OwnOver(r, t, if WsOpen(s, t) then R.Exited(Status(413)) else R.Aborted(R.SendPanic));
    case Parse(t) => OwnParse(r, t, s.fits);
    case Drop(t) => OwnOver(r, t, R.Aborted(R.Dropped));
    case _ =>
  }

  lemma StuckTask(s: State, step: Step, t: TaskId, x: ResponderId)
    requires Stuck(s.r, t, x) && Enabled(s, step) && OfTask(step) && !Frees(step, t, x) && RS.Sound(s.r)
    ensures Stuck(Apply(s, step).r, t, x)
  {
    if step.t == t {
      NoStepOfItsOwn(s, step, t, x);
    }
    OwnStep(s, step);
    assert RS.TaskOk(s.r, t);
    hide Apply, Enabled, RS.Sound;
    StuckMeanwhile(s.r, Apply(s, step).r, step.t, t, x);
  }

  lemma NoStepOfItsOwn(s: State, step: Step, t: TaskId, x: ResponderId)
    requires Stuck(s.r, t, x) && Enabled(s, step) && OfTask(step) && step.t == t
    ensures step == Drop(t)
  {
    hide R.Payload, A.Enabled, O.ChannelOf;
  }

  lemma StuckMeanwhile(r: R.Requests, b: R.Requests, u: TaskId, t: TaskId, x: ResponderId)
    requires Stuck(r, t, x) && Own(r, b, u) && u != t && RS.TaskOk(r, t)
    ensures Stuck(b, t, x)
  {
    var ch := r.tasks[t].rx.value;
    assert RS.SameOrOwn(r.channels[ch], b.channels[ch], u);
    assert b.tasks[t] == r.tasks[t] && b.channels[ch] == r.channels[ch];
    hide RS.OwnBusiness, RS.TaskOk;
    StuckBeside(r, b, t, x);
  }

  /** Nothing but that gets them out of it; and meanwhile nobody's request is registered, claimed or withdrawn. */
  lemma StuckStep(s: State, step: Step, t: TaskId, x: ResponderId)
    requires Inv(s) && Stuck(s.r, t, x) && Enabled(s, step) && !Frees(step, t, x)
    ensures Stuck(Apply(s, step).r, t, x) && Apply(s, step).r.registry == s.r.registry
  {
    assert RS.Sound(s.r) && s.r.lock.Some?;
    D.RegistryIsHeld(s, step);
    hide Inv, RS.Sound, Stuck;
    if step.AgentStep? {
      assert Apply(s, step).r == s.r by { hide A.Apply, A.Enabled; }
    } else if OfResponder(step) {
      StuckResponder(s, step, t, x);
    } else {
      StuckTask(s, step, t, x);
    }
    hide Apply, Enabled;
  }

  /** The upload was broken off, or the client went away. */
  ghost predicate Freed(s: State, b: State, t: TaskId, x: ResponderId) {
    exists step :: Frees(step, t, x) && Enabled(s, step) && b == Apply(s, step)
  }

  lemma StuckNext(s: State, b: State, t: TaskId, x: ResponderId)
    requires Inv(s) && Next(s, b) && Stuck(s.r, t, x) && !Freed(s, b, t, x)
    ensures Stuck(b.r, t, x) && b.r.registry == s.r.registry
  {
    hide Inv, Stuck, Frees, Apply, Enabled;
    var step :| Enabled(s, step) && b == Apply(s, step);
    StuckStep(s, step, t, x);
  }

  /** Unless one of these happens they stay stuck for ever, and with them every request that anybody wants to
      make, answer or withdraw. */
  lemma {:induction false} StuckForEver(run: seq<State>, i: nat, j: nat, t: TaskId, x: ResponderId)
    requires IsRun(run) && i <= j < |run| && Stuck(run[i].r, t, x)
    requires forall n :: i < n <= j ==> !Freed(run[n - 1], run[n], t, x)
    ensures Stuck(run[j].r, t, x) && run[j].r.registry == run[i].r.registry
    decreases j
  {
    hide Stuck, Inv, Init, Freed, Next;
    if i < j {
      StuckForEver(run, i, j - 1, t, x);
      InvHolds(run, j - 1);
      StuckNext(run[j - 1], run[j], t, x);
    }
  }

  // ---------------------------------------------------------------------------------------------
  // How they get there
  // ---------------------------------------------------------------------------------------------

  /** The time is up, but the request cannot be withdrawn: the responder has the registry already. */
  lemma GivesUp(s: State, t: TaskId, x: ResponderId) returns (b: State)
    requires Serving(s.r, t, x) && R.At(s.r, t, R.Waiting)
    ensures Leads(s, b) && Serving(b.r, t, x) && R.At(b.r, t, R.Failing(408))
    ensures b.r.responders == s.r.responders && b.r.registry == s.r.registry
  {
    hide Leads, R.Payload;
    Stays(s);
    Goes(s, s, TimeOut(t));
    b := Apply(s, TimeOut(t));
  }

  /** Nobody reads any more. */
  ghost predicate Filling(r: R.Requests, t: TaskId, x: ResponderId, n: nat) {
    && O.HasChannel(r, t) && r.tasks[t].pc.Failing? && x in r.responders && r.lock == Some(x)
    && r.responders[x].pc == R.Sending(r.tasks[t].rx.value) && r.responders[x].sent == n
    && O.ChannelOf(r, t).rxOpen && |O.ChannelOf(r, t).queue| == n
  }

  lemma {:induction false} Fills(s: State, t: TaskId, x: ResponderId, n: nat, payload: seq<Item>) returns (b: State)
    requires Filling(s.r, t, x, n) && n <= 100 < |payload| && R.Payload(s.r.responders[x].reply) == payload
    ensures Leads(s, b) && Stuck(b.r, t, x) && b.r.registry == s.r.registry
    decreases 100 - n
  {
    hide Leads;
    if n == 100 {
      Stays(s);
      b := s;
    } else {
      var m := SendsOne(s, t, x, n, payload);
      b := Fills(m, t, x, n + 1, payload);
      GoesOn(s, m, b);
    }
  }

  lemma SendsOne(s: State, t: TaskId, x: ResponderId, n: nat, payload: seq<Item>) returns (b: State)
    requires Filling(s.r, t, x, n) && n < 100 < |payload| && R.Payload(s.r.responders[x].reply) == payload
    ensures Leads(s, b) && Filling(b.r, t, x, n + 1) && R.Payload(b.r.responders[x].reply) == payload
    ensures b.r.registry == s.r.registry
  {
    hide Leads, R.Payload;
    Stays(s);
    Goes(s, s, Send(x));
    b := Apply(s, Send(x));
  }

  /** Any run in which a client may ask can go on to there: for every payload of more than a hundred items. */
  lemma GetsStuck(run: seq<State>, t: TaskId, kind: R.Kind, k: ServerId, file: nat,
                  rid: RequestId, ch: ChannelId, x: ResponderId, payload: seq<Item>)
    returns (longer: seq<State>)
    requires IsRun(run) && |payload| > 100
    requires var s := run[|run| - 1];
      t !in s.r.tasks && s.r.lock == None && Reachable(s, k, 1) && Fresh(s, rid, ch, x)
    ensures IsRun(longer) && run <= longer && Stuck(longer[|longer| - 1].r, t, x)
    ensures longer[|longer| - 1].r.registry == run[|run| - 1].r.registry
  {
    hide Next, Init, Leads, Inv, Stuck;
    var s := run[|run| - 1];
    InvHolds(run, |run| - 1);
    SameReach(s, s, k, 1);
    var m := Arrives(s, t, kind, k, file);
    KeepsInv(s, m);
    SameReach(s, m, k, 1);
    var n := Waits(m, t, rid, ch, x, R.Upload(payload));
    GoesOn(s, m, n);
    m := GivesUp(n, t, x);
    GoesOn(s, n, m);
    n := Fills(m, t, x, 0, payload);
    GoesOn(s, m, n);
    longer := Prolonged(run, n);
  }
}
