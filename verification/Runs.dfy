/** Whole runs of the broker: what stays true from one state to every later one. */
module Runs {
  import opened Common
  import opened Broker
  import H = Handlers
  import A = Agents
  import AS = AgentSafety
  import R = Requests
  import RS = RequestSafety
  import Codec
  import Collector
  import Delivery

  ghost predicate Next(s: State, b: State) { exists step :: Enabled(s, step) && b == Apply(s, step) }

  ghost predicate IsRun(run: seq<State>) {
    run != [] && Init(run[0]) && forall i :: 0 < i < |run| ==> Next(run[i - 1], run[i])
  }

  lemma {:induction false} InvHolds(run: seq<State>, i: nat)
    requires IsRun(run) && i < |run|
    ensures Inv(run[i])
  {
    hide Inv, Init, Next;
    if i == 0 {
      InvInit(run[0]);
    } else {
      InvHolds(run, i - 1);
      InvNext(run[i - 1], run[i]);
    }
  }

  lemma InvNext(s: State, b: State)
    requires Inv(s) && Next(s, b)
    ensures Inv(b)
  {
    hide Inv;
    var step :| Enabled(s, step) && b == Apply(s, step);
    InvStep(s, step);
  }

  // ---------------------------------------------------------------------------------------------
  // Later states: agents
  // ---------------------------------------------------------------------------------------------

  ghost predicate GrownHistory(h: A.History, g: A.History) {
    && h.validated <= g.validated && h.publishedIds <= g.publishedIds && h.admitted <= g.admitted
    && h.overwritten <= g.overwritten && h.expired <= g.expired && h.claimed <= g.claimed
    && h.published <= g.published && h.abandoned <= g.abandoned && h.unpublished <= g.unpublished
    && h.stopRemovals <= g.stopRemovals
  }

  /** A handler only moves on; and once stopped it takes nothing from its queue any more. */
  ghost predicate LaterHandler(h: H.Handler, g: H.Handler) {
    && H.Rank(h.wsState) <= H.Rank(g.wsState)
    && (h.wsState == H.Stopped ==> h.queue <= g.queue)
  }

  ghost predicate LaterConn(a: A.Agents, b: A.Agents, c: ConnId) {
    c in a.conns ==>
      c in b.conns && b.conns[c].openedAt == a.conns[c].openedAt && LaterHandler(a.conns[c].h, b.conns[c].h)
  }

  ghost predicate LaterAgents(a: A.Agents, b: A.Agents) {
    GrownHistory(a.hist, b.hist) && forall c :: LaterConn(a, b, c)
  }

  lemma LaterAgentsReflexive(a: A.Agents)
    ensures LaterAgents(a, a)
  {}

  lemma LaterAgentsTransitive(a: A.Agents, b: A.Agents, d: A.Agents)
    requires LaterAgents(a, b) && LaterAgents(b, d)
    ensures LaterAgents(a, d)
  {
    forall c ensures LaterConn(a, d, c) {
      assert LaterConn(a, b, c) && LaterConn(b, d, c);
    }
  }

  lemma GrownRegistries(a: A.Agents, x: A.Step)
    requires A.Enabled(a, x) && (x.Admit? || x.StopRemove? || x.SweepPop?)
    ensures GrownHistory(a.hist, A.Apply(a, x).hist)
  {}

  lemma GrownFutures(a: A.Agents, f: FutureId, dbFails: bool)
    ensures A.AtPc(a, f, A.Validating) ==> GrownHistory(a.hist, A.AfterValidate(a, f, dbFails).hist)
    ensures A.CanClaim(a, f) ==> GrownHistory(a.hist, A.AfterClaim(a, f).hist)
    ensures A.CanPublish(a, f) ==> GrownHistory(a.hist, A.AfterPublish(a, f).hist)
    ensures A.CanCancel(a, f) ==> GrownHistory(a.hist, A.AfterCancel(a, f).hist)
  {}

  lemma HistoryLeft(a: A.Agents, x: A.Step)
    requires A.Enabled(a, x)
    requires x.Local? || x.AuthRes? || x.Reply? || x.SweepStart? || x.SweepSend? || x.SweepEnd? || x.Rewrite?
    ensures A.Apply(a, x).hist == a.hist
  {
    hide A.Acted, A.CanAct, A.Answer;
  }

  lemma GrownStep(a: A.Agents, x: A.Step)
    requires A.Enabled(a, x)
    ensures GrownHistory(a.hist, A.Apply(a, x).hist)
  {
    hide GrownHistory, A.Acted, A.CanAct, A.AfterAdmit, A.AfterStopRemove, A.AfterValidate, A.AfterClaim,
      A.AfterPublish, A.AfterReply, A.AfterCancel, A.AfterSweepPop, A.AfterSweepSend, A.AfterAuthRes;
    match x
    case Admit(_, _) => GrownRegistries(a, x);
    case StopRemove(_) => GrownRegistries(a, x);
    case SweepPop(_) => GrownRegistries(a, x);
    case Validate(f, dbFails) => GrownFutures(a, f, dbFails);
    case Claim(f) => GrownFutures(a, f, false);
    case Publish(f) => GrownFutures(a, f, false);
    case Cancel(f) => GrownFutures(a, f, false);
    case _ =>
      HistoryLeft(a, x);
      GrownReflexive(a.hist);
  }

  lemma GrownReflexive(h: A.History)
    ensures GrownHistory(h, h)
  {}

  lemma LaterActed(a: A.Agents, d: ConnId, act: A.LocalAct, c: ConnId)
    requires A.CanAct(a, d, act)
    ensures LaterConn(a, A.WithConn(a, d, A.Acted(a, d, act)), c)
  {}

  lemma LaterRegistries(a: A.Agents, x: A.Step, c: ConnId)
    requires A.Enabled(a, x) && (x.Admit? || x.StopRemove?)
    ensures LaterConn(a, A.Apply(a, x), c)
  {}

  lemma LaterSent(a: A.Agents, o: ConnId, m: H.InternalComm, c: ConnId)
    requires o in a.conns
    ensures LaterConn(a, A.Sent(a, o, m), c)
  {}

  lemma LaterReply(a: A.Agents, x: A.Step, c: ConnId)
    requires A.Enabled(a, x) && (x.Reply? || x.SweepSend?)
    ensures LaterConn(a, A.Apply(a, x), c)
  {
    if x.Reply? {
      LaterSent(a, a.futures[x.f].owner, A.Answer(a.futures[x.f].pc).0, c);
    } else {
      LaterSent(a, a.watcher.conn, H.CloseConnection, c);
    }
    hide A.Sent, LaterHandler, A.Answer;
  }

  lemma LaterElsewhere(a: A.Agents, x: A.Step, c: ConnId)
    requires A.Enabled(a, x) && !x.Local? && !x.Admit? && !x.StopRemove? && !x.Reply? && !x.SweepSend?
    ensures LaterConn(a, A.Apply(a, x), c)
  {
    assert A.Apply(a, x).conns == a.conns;
    hide A.Apply, A.Enabled;
  }

  lemma LaterAgentStep(a: A.Agents, x: A.Step)
    requires A.Enabled(a, x)
    ensures LaterAgents(a, A.Apply(a, x))
  {
    GrownStep(a, x);
    hide GrownHistory, LaterConn, A.CanAct, A.Acted, A.AfterAdmit, A.AfterStopRemove, A.AfterReply, A.AfterSweepSend;
    forall c ensures LaterConn(a, A.Apply(a, x), c) {
      match x
      case Local(d, act) => LaterActed(a, d, act, c);
      case Admit(_, _) => LaterRegistries(a, x, c);
      case StopRemove(_) => LaterRegistries(a, x, c);
      case Reply(_) => LaterReply(a, x, c);
      case SweepSend => LaterReply(a, x, c);
      case _ => LaterElsewhere(a, x, c);
    }
  }

  // ---------------------------------------------------------------------------------------------
  // Later states: requests
  // ---------------------------------------------------------------------------------------------

  ghost predicate LaterChannel(c: R.Channel, d: R.Channel) {
    && d.rid == c.rid && d.owner == c.owner && c.delivered <= d.delivered
    && (c.sender != R.Registered ==> d.sender == c.sender)
  }

  ghost predicate LaterResponder(y: R.Responder, z: R.Responder) {
    && z.target == y.target && z.reply == y.reply && y.sent <= z.sent
    && (y.took.Some? ==> z.took == y.took)
    && (y.pc.Done? ==> z == y)
  }

  ghost predicate LaterRequests(r: R.Requests, s: R.Requests) {
    && r.used <= s.used
    && (forall rid :: rid in r.used && rid !in r.registry ==> rid !in s.registry)
    && (forall ch :: ch in r.channels ==> ch in s.channels && LaterChannel(r.channels[ch], s.channels[ch]))
    && (forall x :: x in r.responders ==> x in s.responders && LaterResponder(r.responders[x], s.responders[x]))
    && (forall t :: t in r.tasks ==> t in s.tasks && (R.IsOver(r.tasks[t].pc) ==> s.tasks[t] == r.tasks[t]))
  }

  lemma LaterRequestsReflexive(r: R.Requests)
    ensures LaterRequests(r, r)
  {}

  lemma LaterRequestsTransitive(r: R.Requests, s: R.Requests, u: R.Requests)
    requires LaterRequests(r, s) && LaterRequests(s, u)
    ensures LaterRequests(r, u)
  {}

  lemma LaterResponderStep(s: State, step: Step)
    requires RS.Sound(s.r) && Enabled(s, step) && OfResponder(step)
    ensures LaterRequests(s.r, Apply(s, step).r)
  {
    match step
    case Arrive(x, target, reply) =>
    case Take(x) => LaterTake(s.r, x);
    case Send(x) => LaterSend(s.r, x);
    case Finish(x) =>
    case CancelResponder(x) =>
  }

  lemma LaterTake(r: R.Requests, x: ResponderId)
    requires RS.Sound(r) && R.CanTake(r, x)
    ensures LaterRequests(r, R.AfterTake(r, x))
  {
    assert RS.ResponderOk(r, x);
  }

  lemma LaterSend(r: R.Requests, x: ResponderId)
    requires RS.Sound(r) && R.CanSend(r, x)
    ensures LaterRequests(r, R.AfterSend(r, x))
  {
    hide RS.Sound, R.Payload;
  }

  /** Where only one task and its own channel have moved, nothing else has become different. */
  lemma LaterOwn(r: R.Requests, s: R.Requests, t: TaskId)
    requires RS.OwnBusiness(r, s, t) && (t in r.tasks ==> !R.IsOver(r.tasks[t].pc))
    ensures LaterRequests(r, s)
  {
    forall ch | ch in r.channels ensures ch in s.channels && LaterChannel(r.channels[ch], s.channels[ch]) {
      assert RS.SameOrOwn(r.channels[ch], s.channels[ch], t);
    }
  }

  lemma LaterOpen(r: R.Requests, t: TaskId, rid: RequestId, ch: ChannelId)
    requires R.CanOpen(r, t, rid, ch)
    ensures LaterRequests(r, R.AfterOpen(r, t, rid, ch))
  {}

  lemma LaterWithdraw(r: R.Requests, t: TaskId)
    requires RS.Sound(r) && R.CanWithdraw(r, t)
    ensures LaterRequests(r, R.AfterWithdraw(r, t))
  {
    assert RS.RegistryOk(r);
    hide RS.Sound;
  }

  lemma LaterMove(r: R.Requests, t: TaskId, task: R.Task)
    requires t in r.tasks ==> !R.IsOver(r.tasks[t].pc)
    ensures LaterRequests(r, R.WithTask(r, t, task))
  {
    LaterOwn(r, R.WithTask(r, t, task), t);
  }

  lemma LaterOver(r: R.Requests, t: TaskId, pc: R.TaskPc)
    requires RS.Sound(r) && t in r.tasks && !R.IsOver(r.tasks[t].pc)
    ensures LaterRequests(r, R.Over(r, t, pc))
  {
    assert RS.TaskOk(r, t);
    RS.OwnOver(r, t, pc);
    hide R.Over, RS.Sound, RS.OwnBusiness, LaterRequests;
    LaterOwn(r, R.Over(r, t, pc), t);
  }

  lemma LaterReceive(r: R.Requests, t: TaskId)
    requires RS.Sound(r) && R.CanReceive(r, t)
    ensures LaterRequests(r, R.AfterReceive(r, t))
  {
    assert RS.TaskOk(r, t);
    RS.OwnReceive(r, t);
    hide R.AfterReceive, RS.Sound, RS.OwnBusiness, LaterRequests;
    LaterOwn(r, R.AfterReceive(r, t), t);
  }

  lemma LaterParse(r: R.Requests, t: TaskId, fits: Bytes -> bool)
    requires RS.Sound(r) && R.At(r, t, R.Parsing)
    ensures LaterRequests(r, R.AfterParse(r, t, fits))
  {
    LaterOver(r, t, R.Aborted(R.ParsePanic));
    LaterMove(r, t, R.AfterParse(r, t, fits).tasks[t]);
    hide LaterRequests, R.Over, RS.Sound;
  }

  lemma LaterRoute(r: R.Requests, t: TaskId, found: Option<ConnId>)
    requires RS.Sound(r) && R.At(r, t, R.Asking)
    ensures LaterRequests(r, R.AfterRoute(r, t, found))
  {
    LaterOver(r, t, R.Aborted(R.LookupPanic));
    LaterMove(r, t, r.tasks[t].(pc := R.Routed, ws := found.GetOr(0)));
    hide LaterRequests, R.Over, RS.Sound;
  }

  lemma LaterAsk(r: R.Requests, t: TaskId, delivered: bool)
    requires RS.Sound(r) && R.At(r, t, R.Routed)
    ensures LaterRequests(r, R.AfterAsk(r, t, delivered))
  {
    LaterOver(r, t, R.Aborted(if r.tasks[t].second then R.AgentGone else R.SendPanic));
    LaterMove(r, t, r.tasks[t].(pc := R.Waiting));
    hide LaterRequests, R.Over, RS.Sound;
  }

  lemma LaterReject(r: R.Requests, t: TaskId, delivered: bool)
    requires RS.Sound(r) && R.At(r, t, R.TooLarge)
    ensures LaterRequests(r, R.AfterReject(r, t, delivered))
  {
    LaterOver(r, t, R.Exited(Collector.Status(Collector.PAYLOAD_TOO_LARGE)));
    LaterOver(r, t, R.Aborted(R.SendPanic));
    hide LaterRequests, R.Over, RS.Sound;
  }

  lemma LaterTaskStep(s: State, step: Step)
    requires RS.Sound(s.r) && Enabled(s, step) && OfTask(step)
    ensures LaterRequests(s.r, Apply(s, step).r)
  {
    hide LaterRequests, RS.Sound, R.Over, R.WithTask, R.AfterOpen, R.AfterReceive, R.AfterWithdraw, R.AfterParse,
      R.AfterRoute, R.AfterAsk, R.AfterReject, R.CanOpen, R.CanReceive, R.CanWithdraw, Found, Question,
      A.Apply, A.Enabled, A.Sent;
    match step
    case Begin(t, kind, agent, file) =>
      LaterMove(s.r, t, R.Task(kind, agent, file, false, 0, None, 0, R.Start, [], [], 0));
    case CheckOnline(t) =>
      LaterMove(s.r, t, s.r.tasks[t].(pc := if s.r.tasks[t].agent in s.a.servers then R.Online else R.NotOnline));
    case OpenRequest(t, rid, ch) => LaterOpen(s.r, t, rid, ch);
    case LookUp(t) => LaterRoute(s.r, t, Found(s, s.r.tasks[t].agent));
    case Ask(t) => LaterAsk(s.r, t, WsOpen(s, t));
    case TimeOut(t) => LaterMove(s.r, t, s.r.tasks[t].(pc := R.Failing(Collector.REQUEST_TIMEOUT)));
    case Receive(t) => LaterReceive(s.r, t);
    case Withdraw(t) => LaterWithdraw(s.r, t);
    case Notify(t) => LaterOver(s.r, t, R.Exited(Collector.Status(s.r.tasks[t].pc.code)));
    case Reject(t) => LaterReject(s.r, t, WsOpen(s, t));
    case Parse(t) => LaterParse(s.r, t, s.fits);
    case Drop(t) => LaterOver(s.r, t, R.Aborted(R.Dropped));
  }

  // ---------------------------------------------------------------------------------------------
  // Later states of a run
  // ---------------------------------------------------------------------------------------------

  ghost predicate Later(s: State, b: State) { LaterAgents(s.a, b.a) && LaterRequests(s.r, b.r) }

  lemma AgentsLeft(s: State, step: Step)
    requires Enabled(s, step) && (OfResponder(step) || (OfTask(step) && !step.Ask? && !step.Notify? && !step.Reject?))
    ensures Apply(s, step).a == s.a
  {}

  lemma LaterSentMessage(a: A.Agents, o: ConnId, m: H.Message)
    requires o in a.conns
    ensures LaterAgents(a, A.Sent(a, o, H.SendMessage(m)))
  {
    assert A.Sent(a, o, H.SendMessage(m)).hist == a.hist;
    GrownReflexive(a.hist);
    hide GrownHistory, LaterConn, A.Sent;
    forall c ensures LaterConn(a, A.Sent(a, o, H.SendMessage(m)), c) {
      LaterSent(a, o, H.SendMessage(m), c);
    }
  }

  lemma LaterTold(s: State, step: Step)
    requires Enabled(s, step) && (step.Ask? || step.Notify? || step.Reject?)
    ensures LaterAgents(s.a, Apply(s, step).a)
  {
    hide LaterAgents, A.Sent, Question, A.Apply, A.Enabled;
    match step
    case Ask(t) => LaterSentMessage(s.a, s.r.tasks[t].ws, Question(s.base, s.r.tasks[t]));
    case Notify(t) => LaterSentMessage(s.a, s.r.tasks[t].ws, H.UploadFailed("failed to upload in time"));
    case Reject(t) => LaterSentMessage(s.a, s.r.tasks[t].ws, H.UploadFailed("file too large"));
  }

  lemma LaterStep(s: State, step: Step)
    requires Inv(s) && Enabled(s, step)
    ensures Later(s, Apply(s, step))
  {
    hide LaterAgents, LaterRequests, AS.Safe, RS.Sound, Guarded;
    if step.AgentStep? {
      LaterAgentStep(s.a, step.s);
      LaterRequestsReflexive(s.r);
    } else if OfResponder(step) {
      AgentsLeft(s, step);
      LaterResponderStep(s, step);
      LaterAgentsReflexive(s.a);
    } else {
      LaterTaskStep(s, step);
      if step.Ask? || step.Notify? || step.Reject? {
        LaterTold(s, step);
      } else {
        AgentsLeft(s, step);
        LaterAgentsReflexive(s.a);
      }
    }
  }

  lemma LaterNext(s: State, b: State)
    requires Inv(s) && Next(s, b)
    ensures Later(s, b)
  {
    hide Inv, Later;
    var step :| Enabled(s, step) && b == Apply(s, step);
    LaterStep(s, step);
  }

  lemma {:induction false} LaterInRun(run: seq<State>, i: nat, j: nat)
    requires IsRun(run) && i <= j < |run|
    ensures Later(run[i], run[j])
    decreases j
  {
    hide LaterAgents, LaterRequests, Inv, Next, Init;
    LaterAgentsReflexive(run[i].a);
    LaterRequestsReflexive(run[i].r);
    if i < j {
      LaterInRun(run, i, j - 1);
      InvHolds(run, j - 1);
      LaterNext(run[j - 1], run[j]);
      LaterAgentsTransitive(run[i].a, run[j - 1].a, run[j].a);
      LaterRequestsTransitive(run[i].r, run[j - 1].r, run[j].r);
    }
  }

  // ---------------------------------------------------------------------------------------------
  // Theorems about runs
  // ---------------------------------------------------------------------------------------------

  ghost predicate Nowhere(a: A.Agents, c: ConnId) {
    !AS.InUnauth(a, c) && !AS.InFlight(a, c) && !AS.InServers(a, c)
  }

  /** In every state of every run a sender sits in at most one place, and every sender that sits in
      one is filed there under the id its websocket was opened with. */
  lemma OwnedOnce(run: seq<State>, i: nat, c: ConnId)
    requires IsRun(run) && i < |run|
    ensures H.One(AS.InUnauth(run[i].a, c)) + H.One(AS.InFlight(run[i].a, c)) + H.One(AS.InServers(run[i].a, c)) <= 1
    ensures forall k :: k in run[i].a.unauth && run[i].a.unauth[k] == c ==> AS.InUnauth(run[i].a, c)
    ensures forall k :: k in run[i].a.servers && run[i].a.servers[k] == c ==> AS.InServers(run[i].a, c)
    ensures forall f :: AS.Carries(run[i].a, f, c) ==>
      c in run[i].a.conns && run[i].a.conns[c].openedAt == run[i].a.futures[f].publicId
  {
    InvHolds(run, i);
    hide IsRun;
    assert AS.Filed(run[i].a) && AS.Balanced(run[i].a, c);
    AS.LinearOwnership(run[i].a, c);
    hide Inv, AS.Balanced, AS.InFlight;
  }

  /** A sender that was registered and is in none of its places any more never comes back. */
  lemma GoneForGood(run: seq<State>, i: nat, j: nat, c: ConnId)
    requires IsRun(run) && i <= j < |run|
    requires run[i].a.hist.admitted[c] > 0 && Nowhere(run[i].a, c)
    ensures Nowhere(run[j].a, c)
  {
    InvHolds(run, i);
    InvHolds(run, j);
    LaterInRun(run, i, j);
    hide IsRun;
    assert AS.Balanced(run[i].a, c) && AS.Balanced(run[j].a, c);
    Grown(run[i].a.hist, run[j].a.hist, c);
    hide Inv, Later, AS.InUnauth, AS.InFlight, AS.InServers;
  }

  lemma Grown(h: A.History, g: A.History, c: nat)
    requires GrownHistory(h, g)
    ensures h.validated[c] <= g.validated[c] && h.publishedIds[c] <= g.publishedIds[c]
    ensures h.admitted[c] <= g.admitted[c] && h.overwritten[c] <= g.overwritten[c] && h.expired[c] <= g.expired[c]
    ensures h.claimed[c] <= g.claimed[c] && h.published[c] <= g.published[c] && h.abandoned[c] <= g.abandoned[c]
    ensures h.unpublished[c] <= g.unpublished[c] && h.stopRemovals[c] <= g.stopRemovals[c]
  {}

  /** A connection that the watcher ever tells to close is never published, before or after. */
  lemma ExpiryExcludesPublication(run: seq<State>, i: nat, j: nat, c: ConnId)
    requires IsRun(run) && i < |run| && j < |run|
    requires run[i].a.hist.expired[c] > 0
    ensures run[j].a.hist.published[c] == 0 && run[j].a.hist.claimed[c] == 0 && !AS.InServers(run[j].a, c)
    ensures run[j].a.hist.overwritten[c] == 0
  {
    var m := if i < j then j else i;
    InvHolds(run, j);
    InvHolds(run, m);
    LaterInRun(run, i, m);
    LaterInRun(run, j, m);
    hide IsRun;
    assert AS.Balanced(run[m].a, c) && AS.Balanced(run[j].a, c);
    Grown(run[i].a.hist, run[m].a.hist, c);
    Grown(run[j].a.hist, run[m].a.hist, c);
    hide Inv, Later, AS.InUnauth, AS.InFlight, AS.InServers;
  }

  /** Whenever one more publication under `k` happens, at least that many validations of `k` had
      already succeeded before it. */
  lemma PublicationsArePreceded(run: seq<State>, i: nat, k: ServerId)
    requires IsRun(run) && 0 < i < |run|
    requires run[i].a.hist.publishedIds[k] > run[i - 1].a.hist.publishedIds[k]
    ensures run[i - 1].a.hist.validated[k] >= run[i].a.hist.publishedIds[k]
  {
    InvHolds(run, i);
    var s, b := run[i - 1], run[i];
    hide IsRun;
    assert Next(s, b);
    var step :| Enabled(s, step) && b == Apply(s, step);
    assert AS.Authorised(b.a, k);
    hide Inv, AS.Pending;
    OnlyPublishPublishes(s, step, k);
  }

  lemma OnlyPublishPublishes(s: State, step: Step, k: ServerId)
    requires Enabled(s, step)
    requires Apply(s, step).a.hist.publishedIds[k] > s.a.hist.publishedIds[k]
    ensures Apply(s, step).a.hist.validated == s.a.hist.validated
  {
    if step.AgentStep? {
      hide A.Acted, A.CanAct, A.Answer, Apply, Enabled;
      assert Apply(s, step).a == A.Apply(s.a, step.s) by { ApplyAgent(s, step.s); }
      if !step.s.Publish? {
        OthersDoNotPublish(s.a, step.s);
      }
    } else {
      TasksLeaveHistory(s, step);
    }
  }

  lemma ApplyAgent(s: State, x: A.Step)
    requires Enabled(s, AgentStep(x))
    ensures A.Enabled(s.a, x) && Apply(s, AgentStep(x)).a == A.Apply(s.a, x)
  {}

  lemma OthersDoNotPublish(a: A.Agents, x: A.Step)
    requires A.Enabled(a, x) && !x.Publish?
    ensures A.Apply(a, x).hist.publishedIds == a.hist.publishedIds
  {
    hide A.Acted, A.CanAct, A.Answer;
  }

  lemma TasksLeaveHistory(s: State, step: Step)
    requires Enabled(s, step) && !step.AgentStep?
    ensures Apply(s, step).a.hist == s.a.hist
  {}

  /** Once a handler has stopped, its own removal from `servers` has run, exactly once; it never
      becomes anything else again; and nothing is taken from its queue any more. */
  lemma StoppedForGood(run: seq<State>, i: nat, j: nat, c: ConnId)
    requires IsRun(run) && i <= j < |run|
    requires c in run[i].a.conns && run[i].a.conns[c].h.wsState == H.Stopped
    ensures c in run[j].a.conns && run[j].a.conns[c].h.wsState == H.Stopped
    ensures run[j].a.hist.stopRemovals[c] == 1
    ensures run[i].a.conns[c].h.queue <= run[j].a.conns[c].h.queue
  {
    InvHolds(run, j);
    LaterInRun(run, i, j);
    hide IsRun;
    assert LaterConn(run[i].a, run[j].a, c);
    assert AS.HandlerKept(run[j].a, c);
    hide Inv, LaterRequests;
  }

  /** A request that a collection or a stream has dealt with is never registered again, whatever
      responders turn up for it later. */
  lemma NeverStaleAgain(run: seq<State>, i: nat, j: nat, t: TaskId)
    requires IsRun(run) && i <= j < |run|
    requires t in run[i].r.tasks && RS.Settled(run[i].r.tasks[t].pc)
    ensures run[i].r.tasks[t].rid !in run[j].r.registry
  {
    InvHolds(run, i);
    LaterInRun(run, i, j);
    Delivery.NoStaleRequest(run[i], t);
    hide IsRun, Inv, LaterAgents;
  }

  /** Two uploads or replies never mix: if anything has come out of a channel, then whatever comes
      out of it later still comes from the same responder, and carries on where it was. */
  lemma SameResponderForEver(run: seq<State>, i: nat, j: nat, ch: ChannelId, x: ResponderId)
    requires IsRun(run) && i <= j < |run|
    requires ch in run[i].r.channels && run[i].r.channels[ch].sender == R.TakenBy(x)
    ensures ch in run[j].r.channels && x in run[j].r.responders && x in run[i].r.responders
    ensures var y, z := run[i].r.responders[x], run[j].r.responders[x];
      && z.reply == y.reply && z.sent <= |R.Payload(y.reply)|
      && run[i].r.channels[ch].delivered <= run[j].r.channels[ch].delivered <= R.Payload(y.reply)[..z.sent]
  {
    InvHolds(run, i);
    InvHolds(run, j);
    LaterInRun(run, i, j);
    hide IsRun;
    assert LaterChannel(run[i].r.channels[ch], run[j].r.channels[ch]);
    assert RS.ChannelOk(run[i].r, ch) && RS.ChannelOk(run[j].r, ch);
    hide R.Payload, Inv, LaterAgents;
    var c := run[j].r.channels[ch];
    assert c.delivered <= c.delivered + c.queue;
  }

  // ---------------------------------------------------------------------------------------------
  // The two phases of a download
  // ---------------------------------------------------------------------------------------------

  /** What a task has learnt from the metadata, if it is in its second phase. */
  ghost predicate SameSecondPhase(before: R.Task, after: R.Task) {
    && before.second && after.second && after.kind == before.kind && after.agent == before.agent
    && after.file == before.file && after.fileName == before.fileName && after.fileSize == before.fileSize
  }

  /** `after` has just begun its second phase, with the name and the size that `before` had collected. */
  ghost predicate BeginsSecondPhase(fits: Bytes -> bool, before: R.Task, after: R.Task) {
    && before.pc == R.Parsing && after.second && after.kind == before.kind && after.agent == before.agent
    && after.file == before.file
    && Codec.ReadMetadata(fits, before.acc) == Some((after.fileName, after.fileSize))
  }

  /** Whoever is in the second phase afterwards was in it before, and knows the same. */
  ghost predicate PhaseKept(r: R.Requests, b: R.Requests, t: TaskId) {
    t in b.tasks && b.tasks[t].second ==> t in r.tasks && SameSecondPhase(r.tasks[t], b.tasks[t])
  }

  /** Only one task moves, and that one has nothing of this changed. */
  lemma PhaseOfMoved(r: R.Requests, b: R.Requests, z: TaskId, t: TaskId)
    requires z in b.tasks && b.tasks == r.tasks[z := b.tasks[z]]
    requires b.tasks[z].second ==> z in r.tasks && SameSecondPhase(r.tasks[z], b.tasks[z])
    ensures PhaseKept(r, b, t)
  {}

  lemma PhaseOfOver(r: R.Requests, z: TaskId, pc: R.TaskPc, t: TaskId)
    requires z in r.tasks
    ensures PhaseKept(r, R.Over(r, z, pc), t)
  {
    PhaseOfMoved(r, R.Over(r, z, pc), z, t);
  }

  lemma PhaseOfReceive(r: R.Requests, z: TaskId, t: TaskId)
    requires R.CanReceive(r, z)
    ensures PhaseKept(r, R.AfterReceive(r, z), t)
  {
    hide R.OnItem, R.OnClose;
    PhaseOfMoved(r, R.AfterReceive(r, z), z, t);
  }

  lemma PhaseOfWithdraw(r: R.Requests, z: TaskId, t: TaskId)
    requires R.CanWithdraw(r, z)
    ensures PhaseKept(r, R.AfterWithdraw(r, z), t)
  {
    PhaseOfMoved(r, R.AfterWithdraw(r, z), z, t);
  }

  lemma PhaseOfOpen(r: R.Requests, z: TaskId, rid: RequestId, ch: ChannelId, t: TaskId)
    requires R.CanOpen(r, z, rid, ch)
    ensures PhaseKept(r, R.AfterOpen(r, z, rid, ch), t)
  {
    PhaseOfMoved(r, R.AfterOpen(r, z, rid, ch), z, t);
  }

  lemma PhaseOfTask(r: R.Requests, z: TaskId, task: R.Task, t: TaskId)
    requires task.second ==> z in r.tasks && SameSecondPhase(r.tasks[z], task)
    ensures PhaseKept(r, R.WithTask(r, z, task), t)
  {
    PhaseOfMoved(r, R.WithTask(r, z, task), z, t);
  }

  /** Reading the metadata is the one step that begins a second phase. */
  lemma PhaseOfParse(r: R.Requests, z: TaskId, fits: Bytes -> bool, t: TaskId)
    requires R.At(r, z, R.Parsing) && t in R.AfterParse(r, z, fits).tasks && R.AfterParse(r, z, fits).tasks[t].second
    ensures t in r.tasks
    ensures var before, after := r.tasks[t], R.AfterParse(r, z, fits).tasks[t];
      SameSecondPhase(before, after) || BeginsSecondPhase(fits, before, after)
  {
    hide Codec.ReadMetadata;
  }

  lemma OtherStepsKeepPhase(s: State, step: Step, t: TaskId)
    requires Enabled(s, step) && OfTask(step) && !step.Parse?
    ensures PhaseKept(s.r, Apply(s, step).r, t)
  {
    hide PhaseKept, SameSecondPhase, R.Over, R.AfterOpen, R.AfterReceive, R.AfterWithdraw, R.CanOpen, R.CanReceive,
      R.CanWithdraw, Question, A.Sent, WsOpen;
    match step
    case Begin(z, kind, agent, file) =>
      PhaseOfTask(s.r, z, R.Task(kind, agent, file, false, 0, None, 0, R.Start, [], [], 0), t);
    case CheckOnline(z) =>
      MovedTask(s.r, z, s.r.tasks[z].(pc := if s.r.tasks[z].agent in s.a.servers then R.Online else R.NotOnline), t);
    case OpenRequest(z, rid, ch) => PhaseOfOpen(s.r, z, rid, ch, t);
    case LookUp(z) =>
      var found := Found(s, s.r.tasks[z].agent);
      if found.Some? {
        MovedTask(s.r, z, s.r.tasks[z].(pc := R.Routed, ws := found.value), t);
      } else {
        PhaseOfOver(s.r, z, R.Aborted(R.LookupPanic), t);
      }
    case Ask(z) =>
      if WsOpen(s, z) {
        MovedTask(s.r, z, s.r.tasks[z].(pc := R.Waiting), t);
      } else {
        PhaseOfOver(s.r, z, R.Aborted(if s.r.tasks[z].second then R.AgentGone else R.SendPanic), t);
      }
    case TimeOut(z) => MovedTask(s.r, z, s.r.tasks[z].(pc := R.Failing(Collector.REQUEST_TIMEOUT)), t);
    case Receive(z) => PhaseOfReceive(s.r, z, t);
    case Withdraw(z) => PhaseOfWithdraw(s.r, z, t);
    case Notify(z) => PhaseOfOver(s.r, z, R.Exited(Collector.Status(s.r.tasks[z].pc.code)), t);
    case Reject(z) =>
      PhaseOfOver(s.r, z, R.Exited(Collector.Status(Collector.PAYLOAD_TOO_LARGE)), t);
      PhaseOfOver(s.r, z, R.Aborted(R.SendPanic), t);
    case Drop(z) => PhaseOfOver(s.r, z, R.Aborted(R.Dropped), t);
  }

  lemma MovedTask(r: R.Requests, z: TaskId, task: R.Task, t: TaskId)
    requires z in r.tasks && task == r.tasks[z].(pc := task.pc, ws := task.ws)
    ensures PhaseKept(r, R.WithTask(r, z, task), t)
  {
    PhaseOfTask(r, z, task, t);
  }

  lemma ConstantsKept(s: State, step: Step)
    requires Enabled(s, step)
    ensures Apply(s, step).fits == s.fits && Apply(s, step).base == s.base
    ensures step.AgentStep? ==> Apply(s, step).r == s.r
    ensures step.Parse? ==> Apply(s, step).r == R.AfterParse(s.r, step.t, s.fits)
  {
    hide A.Apply, A.Enabled, A.Sent, Question, R.Over, R.WithTask, R.AfterReceive, R.AfterParse, R.AfterTake,
      R.AfterSend;
  }

  lemma SecondPhaseStep(s: State, step: Step, t: TaskId)
    requires Enabled(s, step) && t in Apply(s, step).r.tasks && Apply(s, step).r.tasks[t].second
    ensures t in s.r.tasks && Apply(s, step).fits == s.fits
    ensures var before, after := s.r.tasks[t], Apply(s, step).r.tasks[t];
      SameSecondPhase(before, after) || BeginsSecondPhase(s.fits, before, after)
  {
    ConstantsKept(s, step);
    if step.Parse? {
      assert R.At(s.r, step.t, R.Parsing);
      hide Apply, Enabled, BeginsSecondPhase, SameSecondPhase, R.AfterParse;
      PhaseOfParse(s.r, step.t, s.fits, t);
    } else if OfTask(step) {
      OtherStepsKeepPhase(s, step, t);
      hide Apply, Enabled, SameSecondPhase;
    } else if OfResponder(step) {
      TasksLeft(s, step);
      hide Apply, Enabled;
    } else {
      hide Apply, Enabled;
    }
  }

  /** A task in the second phase of a download had its metadata collected before: in an earlier state
      of the run it was about to read what one responder, aiming at the request of the first phase,
      had sent to it; and its name and size are what is read in that. */
  lemma {:induction false} SecondPhaseFollowsMetadata(run: seq<State>, j: nat, t: TaskId)
    returns (i: nat, x: ResponderId)
    requires IsRun(run) && j < |run| && t in run[j].r.tasks && run[j].r.tasks[t].second
    ensures i < j && FirstPhase(run[i], run[j], t, x)
  {
    hide IsRun, Inv, FirstPhase, BeginsSecondPhase, SameSecondPhase, Next, Init;
    StepsInRun(run, j, t);
    var s, b := run[j - 1], run[j];
    InvHolds(run, j - 1);
    PhaseNext(s, b, t);
    if SameSecondPhase(s.r.tasks[t], b.r.tasks[t]) {
      assert s.r.tasks[t].second by { StillSecond(s.r.tasks[t], b.r.tasks[t]); }
      i, x := SecondPhaseFollowsMetadata(run, j - 1, t);
      FirstPhaseStays(run[i], s, b, t, x);
    } else {
      i := j - 1;
      x := JustCollected(s, b, t);
    }
  }

  /** `s` is the state in which the task reads its metadata, and `b` one in which it knows it. */
  ghost predicate FirstPhase(s: State, b: State, t: TaskId, x: ResponderId) {
    && R.At(s.r, t, R.Parsing) && Delivery.Answers(s, t, x) && s.r.responders[x].target == s.r.tasks[t].rid
    && t in b.r.tasks
    && var y, first, now := s.r.responders[x], s.r.tasks[t], b.r.tasks[t];
      && y.sent <= |R.Payload(y.reply)| && first.acc == Collector.Concat(R.Payload(y.reply)[..y.sent])
      && (y.pc == R.Done(R.Completed) ==> y.sent == |R.Payload(y.reply)|)
      && Codec.ReadMetadata(s.fits, first.acc) == Some((now.fileName, now.fileSize))
      && now.agent == first.agent && now.file == first.file
  }

  lemma PhaseNext(s: State, b: State, t: TaskId)
    requires Next(s, b) && t in b.r.tasks && b.r.tasks[t].second
    ensures t in s.r.tasks
    ensures SameSecondPhase(s.r.tasks[t], b.r.tasks[t]) || BeginsSecondPhase(s.fits, s.r.tasks[t], b.r.tasks[t])
  {
    hide Apply, Enabled, BeginsSecondPhase, SameSecondPhase;
    var step :| Enabled(s, step) && b == Apply(s, step);
    SecondPhaseStep(s, step, t);
  }

  lemma StillSecond(before: R.Task, after: R.Task)
    requires SameSecondPhase(before, after)
    ensures before.second
  {}

  lemma FirstPhaseStays(s: State, a: State, b: State, t: TaskId, x: ResponderId)
    requires FirstPhase(s, a, t, x) && t in b.r.tasks && SameSecondPhase(a.r.tasks[t], b.r.tasks[t])
    ensures FirstPhase(s, b, t, x)
  {
    hide Codec.ReadMetadata, Delivery.Answers;
  }

  lemma JustCollected(s: State, b: State, t: TaskId) returns (x: ResponderId)
    requires Inv(s) && t in s.r.tasks && t in b.r.tasks && BeginsSecondPhase(s.fits, s.r.tasks[t], b.r.tasks[t])
    ensures FirstPhase(s, b, t, x)
  {
    hide Inv, Codec.ReadMetadata, Delivery.Answers, R.Payload;
    x := Delivery.WholeAnswer(s, t);
    Delivery.ParsingCollected(s, t, x);
  }

  lemma StepsInRun(run: seq<State>, j: nat, t: TaskId)
    requires IsRun(run) && j < |run| && t in run[j].r.tasks
    ensures j > 0 && Next(run[j - 1], run[j])
  {
    hide Next;
  }
}
