/** Logging in and going away, over whole runs of the broker. */
module Lifecycle {
  import opened Common
  import opened Broker
  import opened Runs
  import H = Handlers
  import A = Agents
  import AS = AgentSafety

  // ---------------------------------------------------------------------------------------------
  // Who passes validation
  // ---------------------------------------------------------------------------------------------

  /** The agent's answer names a registered id and gives the passcode that is stored for it. */
  ghost predicate Matches(a: A.Agents, f: FutureId) {
    f in a.futures && a.futures[f].publicId in a.db && a.db[a.futures[f].publicId] == a.futures[f].passcode
  }

  /** The future has got past validation, and is on its way to `servers` or beyond. */
  ghost predicate Passed(a: A.Agents, f: FutureId) {
    && f in a.futures
    && (a.futures[f].pc == A.Claiming || a.futures[f].pc.Publishing? || a.futures[f].pc == A.SendingOk
        || a.futures[f].pc == A.SendingAuthenticated)
  }

  ghost predicate SameFuture(a: A.Agents, b: A.Agents, f: FutureId) {
    && f in a.futures && f in b.futures && b.futures[f].owner == a.futures[f].owner
    && b.futures[f].publicId == a.futures[f].publicId && b.futures[f].passcode == a.futures[f].passcode
  }

  /** The step decides for each answer, and the database may fail to decide. */
  lemma ValidationDecides(a: A.Agents, f: FutureId, dbFails: bool)
    requires A.AtPc(a, f, A.Validating)
    ensures var b := A.Apply(a, A.Validate(f, dbFails));
      && SameFuture(a, b, f) && b.servers == a.servers && b.unauth == a.unauth && b.conns == a.conns
      && b.futures[f].pc == if dbFails then A.Finished else if Matches(a, f) then A.Claiming else A.SendingError
  {}

  /** What has passed had passed before, or matches. */
  lemma PassedBefore(a: A.Agents, x: A.Step, f: FutureId)
    requires A.Enabled(a, x) && Passed(A.Apply(a, x), f)
    ensures SameFuture(a, A.Apply(a, x), f)
    ensures Passed(a, f) || (A.AtPc(a, f, A.Validating) && A.AtPc(A.Apply(a, x), f, A.Claiming) && Matches(a, f))
  {
    hide A.Acted, A.CanAct;
    FuturesMove(a, x, f);
  }

  /** How the futures look after a step: one has been added or has moved on. */
  lemma FuturesMove(a: A.Agents, x: A.Step, f: FutureId)
    requires A.Enabled(a, x) && f in A.Apply(a, x).futures
    ensures f !in a.futures ==> x.AuthRes? && A.AtPc(A.Apply(a, x), f, A.Validating)
    ensures f in a.futures ==> SameFuture(a, A.Apply(a, x), f) && MayBecome(a, A.Apply(a, x), f)
  {
    hide A.Acted, A.CanAct, A.AfterAdmit, A.AfterStopRemove, A.AfterValidate, A.AfterClaim, A.AfterPublish,
      A.AfterReply, A.AfterCancel, A.AfterSweepPop, A.AfterSweepSend, A.AfterAuthRes, MayBecome;
    match x
    case AuthRes(c, g, p, passcode) => AnswerMoves(a, c, g, p, passcode, f);
    case Validate(g, dbFails) => ValidateMoves(a, g, dbFails, f);
    case Claim(g) => ClaimMoves(a, g, f);
    case Publish(g) => PublishMoves(a, g, f);
    case Reply(g) => ReplyMoves(a, g, f);
    case Cancel(g) => CancelMoves(a, g, f);
    case _ =>
      FuturesLeft(a, x);
      NoMove(a, A.Apply(a, x), f);
  }

  /** `m` has been put into the queue of `c`, unless its handler is gone. */
  ghost predicate Told(a: A.Agents, b: A.Agents, c: ConnId, m: H.InternalComm) {
    && c in a.conns && c in b.conns
    && (a.conns[c].phase == A.Closed ==> b.conns == a.conns)
    && (a.conns[c].phase != A.Closed ==> b.conns[c].h.queue == a.conns[c].h.queue + [m])
  }

  /** All that may become of a future in one step, and what then happens besides. It may be dropped
      at any time, or stay where it is. */
  ghost predicate MayBecome(a: A.Agents, b: A.Agents, f: FutureId)
    requires SameFuture(a, b, f)
  {
    var k, o, now := a.futures[f].publicId, a.futures[f].owner, b.futures[f].pc;
    || now == a.futures[f].pc || now == A.Finished
    || match a.futures[f].pc
       case Validating => if Matches(a, f) then now == A.Claiming else now == A.SendingError
       case Claiming => k in a.unauth && now == A.Publishing(a.unauth[k]) && b.unauth == a.unauth - {k}
       case Publishing(c) => now == A.SendingOk && b.servers == a.servers[k := c]
       case SendingOk => now == A.SendingAuthenticated && Told(a, b, o, H.SendMessage(H.AuthOk))
       case SendingError => now == A.SendingClose && Told(a, b, o, H.SendMessage(H.AuthFailed))
       case _ => false
  }

  lemma NoMove(a: A.Agents, b: A.Agents, f: FutureId)
    requires b.futures == a.futures
    ensures f in a.futures ==> SameFuture(a, b, f) && MayBecome(a, b, f)
  {}

  lemma FuturesLeft(a: A.Agents, x: A.Step)
    requires A.Enabled(a, x)
    requires !x.AuthRes? && !x.Validate? && !x.Claim? && !x.Publish? && !x.Reply? && !x.Cancel?
    ensures A.Apply(a, x).futures == a.futures
  {
    hide A.Acted, A.CanAct;
  }

  lemma AnswerMoves(a: A.Agents, c: ConnId, g: FutureId, p: ServerId, passcode: Passcode, f: FutureId)
    requires A.CanAuthRes(a, c, g) && f in A.AfterAuthRes(a, c, g, p, passcode).futures
    ensures var b := A.AfterAuthRes(a, c, g, p, passcode);
      && (f !in a.futures ==> A.AtPc(b, f, A.Validating))
      && (f in a.futures ==> SameFuture(a, b, f) && MayBecome(a, b, f))
  {}

  lemma ValidateMoves(a: A.Agents, g: FutureId, dbFails: bool, f: FutureId)
    requires A.AtPc(a, g, A.Validating) && f in A.AfterValidate(a, g, dbFails).futures
    ensures var b := A.AfterValidate(a, g, dbFails); SameFuture(a, b, f) && MayBecome(a, b, f)
  {}

  lemma ClaimMoves(a: A.Agents, g: FutureId, f: FutureId)
    requires A.CanClaim(a, g) && f in A.AfterClaim(a, g).futures
    ensures var b := A.AfterClaim(a, g); SameFuture(a, b, f) && MayBecome(a, b, f)
  {}

  lemma PublishMoves(a: A.Agents, g: FutureId, f: FutureId)
    requires A.CanPublish(a, g) && f in A.AfterPublish(a, g).futures
    ensures var b := A.AfterPublish(a, g); SameFuture(a, b, f) && MayBecome(a, b, f)
  {}

  lemma ReplyMoves(a: A.Agents, g: FutureId, f: FutureId)
    requires A.CanReply(a, g) && f in A.AfterReply(a, g).futures
    ensures var b := A.AfterReply(a, g); SameFuture(a, b, f) && MayBecome(a, b, f)
  {
    RepliesTell(a, g);
  }

  lemma CancelMoves(a: A.Agents, g: FutureId, f: FutureId)
    requires A.CanCancel(a, g) && f in A.AfterCancel(a, g).futures
    ensures var b := A.AfterCancel(a, g); SameFuture(a, b, f) && MayBecome(a, b, f)
  {}

  /** What a future tells its own websocket: after a login that it is accepted, after a refusal that
      it is not, and then that it is to close. */
  lemma RepliesTell(a: A.Agents, f: FutureId)
    requires A.CanReply(a, f)
    ensures var b, o := A.Apply(a, A.Reply(f)), a.futures[f].owner;
      && SameFuture(a, b, f)
      && match a.futures[f].pc
         case SendingOk => Told(a, b, o, H.SendMessage(H.AuthOk)) && b.futures[f].pc == A.SendingAuthenticated
         case SendingAuthenticated => Told(a, b, o, H.NowAuthenticated) && b.futures[f].pc == A.Finished
         case SendingError => Told(a, b, o, H.SendMessage(H.AuthFailed)) && b.futures[f].pc == A.SendingClose
         case _ => Told(a, b, o, H.CloseConnection) && b.futures[f].pc == A.Finished
  {}

  // ---------------------------------------------------------------------------------------------
  // Over runs
  // ---------------------------------------------------------------------------------------------

  /** The steps of client tasks leave all this alone. */
  ghost predicate SameAgents(a: A.Agents, b: A.Agents) {
    b.futures == a.futures && b.servers == a.servers && b.unauth == a.unauth && b.hist == a.hist && b.db == a.db
  }

  ghost predicate AgentNext(a: A.Agents, b: A.Agents) { exists x :: A.Enabled(a, x) && b == A.Apply(a, x) }

  lemma AgentsSide(s: State, b: State)
    requires Next(s, b)
    ensures AgentNext(s.a, b.a) || SameAgents(s.a, b.a)
  {
    hide Apply, Enabled, SameAgents, A.Apply, A.Enabled;
    var step :| Enabled(s, step) && b == Apply(s, step);
    if step.AgentStep? {
      ApplyAgent(s, step.s);
    } else {
      TasksLeaveAgents(s, step);
    }
  }

  lemma TasksLeaveAgents(s: State, step: Step)
    requires Enabled(s, step) && !step.AgentStep?
    ensures SameAgents(s.a, Apply(s, step).a)
  {
    hide Question, A.Apply, A.Enabled, SameAgents;
    if step.Ask? || step.Notify? || step.Reject? {
      TellingLeavesAgents(s, step);
    } else {
      AgentsLeft(s, step);
      hide Apply, Enabled;
      NothingMoved(s.a);
    }
  }

  lemma NothingMoved(a: A.Agents)
    ensures SameAgents(a, a)
  {}

  lemma TellingLeavesAgents(s: State, step: Step)
    requires Enabled(s, step) && (step.Ask? || step.Notify? || step.Reject?)
    ensures SameAgents(s.a, Apply(s, step).a)
  {
    hide Question, A.Apply, A.Enabled;
  }

  lemma StepInRun(run: seq<State>, i: nat)
    requires IsRun(run) && 0 < i < |run|
    ensures AgentNext(run[i - 1].a, run[i].a) || SameAgents(run[i - 1].a, run[i].a)
  {
    hide Next, AgentNext, SameAgents;
    AgentsSide(run[i - 1], run[i]);
  }

  lemma StartOfRun(run: seq<State>)
    requires IsRun(run)
    ensures run[0].a.futures == map[] && run[0].a.servers == map[]
  {}

  /** A future has passed validation only if, when it did, its answer matched what was stored. */
  lemma {:induction false} PassedMeansMatched(run: seq<State>, j: nat, f: FutureId) returns (i: nat)
    requires IsRun(run) && j < |run| && Passed(run[j].a, f)
    ensures i < j && SameFuture(run[i].a, run[j].a, f)
    ensures A.AtPc(run[i].a, f, A.Validating) && Matches(run[i].a, f) && A.AtPc(run[i + 1].a, f, A.Claiming)
  {
    hide IsRun, AgentNext, SameAgents, Passed, Matches, SameFuture;
    assert j > 0 by { StartOfRun(run); PassedIsThere(run[0].a, f); }
    StepInRun(run, j);
    PassedStep(run[j - 1].a, run[j].a, f);
    if Passed(run[j - 1].a, f) {
      i := PassedMeansMatched(run, j - 1, f);
      SameFutureTwice(run[i].a, run[j - 1].a, run[j].a, f);
    } else {
      i := j - 1;
    }
  }

  lemma PassedIsThere(a: A.Agents, f: FutureId)
    requires a.futures == map[]
    ensures !Passed(a, f)
  {}

  lemma SameFutureTwice(a: A.Agents, b: A.Agents, d: A.Agents, f: FutureId)
    requires SameFuture(a, b, f) && SameFuture(b, d, f)
    ensures SameFuture(a, d, f)
  {}

  lemma PassedStep(a: A.Agents, b: A.Agents, f: FutureId)
    requires (AgentNext(a, b) || SameAgents(a, b)) && Passed(b, f)
    ensures SameFuture(a, b, f)
    ensures Passed(a, f) || (A.AtPc(a, f, A.Validating) && A.AtPc(b, f, A.Claiming) && Matches(a, f))
  {
    if AgentNext(a, b) {
      hide Passed, Matches, SameFuture, A.Apply, A.Enabled;
      var x :| A.Enabled(a, x) && b == A.Apply(a, x);
      PassedBefore(a, x, f);
    }
  }

  /** Whoever waits for validation has always done so. */
  lemma {:induction false} StillValidating(run: seq<State>, i: nat, j: nat, f: FutureId)
    requires IsRun(run) && i <= j < |run| && f in run[i].a.futures && A.AtPc(run[j].a, f, A.Validating)
    ensures A.AtPc(run[i].a, f, A.Validating)
    decreases j
  {
    hide IsRun, AgentNext, SameAgents;
    if i < j {
      FuturesStay(run, i, j - 1, f);
      StepInRun(run, j);
      ValidatingBefore(run[j - 1].a, run[j].a, f);
      StillValidating(run, i, j - 1, f);
    }
  }

  lemma {:induction false} FuturesStay(run: seq<State>, i: nat, j: nat, f: FutureId)
    requires IsRun(run) && i <= j < |run| && f in run[i].a.futures
    ensures f in run[j].a.futures
    decreases j
  {
    hide IsRun, AgentNext, SameAgents;
    if i < j {
      FuturesStay(run, i, j - 1, f);
      StepInRun(run, j);
      FutureStays(run[j - 1].a, run[j].a, f);
    }
  }

  lemma FutureStays(a: A.Agents, b: A.Agents, f: FutureId)
    requires (AgentNext(a, b) || SameAgents(a, b)) && f in a.futures
    ensures f in b.futures
  {
    if AgentNext(a, b) {
      var x :| A.Enabled(a, x) && b == A.Apply(a, x);
      FuturesGrow(a, x);
      hide A.Apply, A.Enabled;
    }
  }

  lemma FuturesGrow(a: A.Agents, x: A.Step)
    requires A.Enabled(a, x)
    ensures a.futures.Keys <= A.Apply(a, x).futures.Keys
  {
    if !x.AuthRes? {
      NoNewFuture(a, x);
      hide A.Apply, A.Enabled;
    }
  }

  lemma ValidatingBefore(a: A.Agents, b: A.Agents, f: FutureId)
    requires (AgentNext(a, b) || SameAgents(a, b)) && f in a.futures && A.AtPc(b, f, A.Validating)
    ensures A.AtPc(a, f, A.Validating)
  {
    if AgentNext(a, b) {
      var x :| A.Enabled(a, x) && b == A.Apply(a, x);
      FuturesMove(a, x, f);
      hide A.Apply, A.Enabled;
    }
  }

  /** A future whose answer matches at no instant from now on never gets past validation. */
  lemma WrongPasscodeNeverPasses(run: seq<State>, i: nat, j: nat, f: FutureId)
    requires IsRun(run) && i <= j < |run| && A.AtPc(run[i].a, f, A.Validating)
    requires forall n :: i <= n < j ==> !Matches(run[n].a, f)
    ensures !Passed(run[j].a, f)
  {
    hide IsRun, Matches, Passed;
    if Passed(run[j].a, f) {
      var n := PassedMeansMatched(run, j, f);
      if n < i {
        StillValidating(run, n + 1, i, f);
      }
    }
  }

  /** Whoever is logged in under an id was put there by a future that carried its sender, and had named
      this id with the passcode stored for it. */
  lemma {:induction false} LoggedInMeansMatched(run: seq<State>, j: nat, k: ServerId)
    returns (i: nat, m: nat, f: FutureId)
    requires IsRun(run) && j < |run| && k in run[j].a.servers
    ensures i < m < j && Matches(run[i].a, f) && A.AtPc(run[i].a, f, A.Validating)
    ensures run[i].a.futures[f].publicId == k && SameFuture(run[i].a, run[m].a, f)
    ensures AS.Carries(run[m].a, f, run[j].a.servers[k])
  {
    hide IsRun, AgentNext, SameAgents, Matches, SameFuture, Passed;
    assert j > 0 by { StartOfRun(run); }
    StepInRun(run, j);
    var g := ServerBefore(run[j - 1].a, run[j].a, k);
    if g == None {
      i, m, f := LoggedInMeansMatched(run, j - 1, k);
    } else {
      f, m := g.value, j - 1;
      CarrierPassed(run[m].a, f, run[j].a.servers[k]);
      i := PassedMeansMatched(run, m, f);
      SameIds(run[i].a, run[m].a, f);
    }
  }

  lemma CarrierPassed(a: A.Agents, f: FutureId, c: ConnId)
    requires AS.Carries(a, f, c)
    ensures Passed(a, f)
  {}

  lemma SameIds(a: A.Agents, b: A.Agents, f: FutureId)
    requires SameFuture(a, b, f)
    ensures f in a.futures && f in b.futures && a.futures[f].publicId == b.futures[f].publicId
  {}

  lemma ServerBefore(a: A.Agents, b: A.Agents, k: ServerId) returns (f: Option<FutureId>)
    requires (AgentNext(a, b) || SameAgents(a, b)) && k in b.servers
    ensures f == None ==> k in a.servers && a.servers[k] == b.servers[k]
    ensures f.Some? ==> AS.Carries(a, f.value, b.servers[k]) && a.futures[f.value].publicId == k
  {
    f := None;
    if AgentNext(a, b) {
      var x :| A.Enabled(a, x) && b == A.Apply(a, x);
      if x.Publish? {
        f := PublishedServer(a, x.f, k);
      } else if x.StopRemove? {
        hide A.Acted;
      } else {
        ServersLeft(a, x);
        hide A.Apply, A.Enabled;
      }
    }
  }

  lemma PublishedServer(a: A.Agents, g: FutureId, k: ServerId) returns (f: Option<FutureId>)
    requires A.CanPublish(a, g) && k in A.AfterPublish(a, g).servers
    ensures var b := A.AfterPublish(a, g);
      && (f == None ==> k in a.servers && a.servers[k] == b.servers[k])
      && (f.Some? ==> AS.Carries(a, f.value, b.servers[k]) && a.futures[f.value].publicId == k)
  {
    f := if a.futures[g].publicId == k then Some(g) else None;
  }

  /** The count of validations of an id grows only when an answer for it matches, which then passes. */
  lemma CountedValidationMatched(run: seq<State>, i: nat, k: ServerId) returns (f: FutureId)
    requires IsRun(run) && 0 < i < |run| && run[i].a.hist.validated[k] > run[i - 1].a.hist.validated[k]
    ensures A.AtPc(run[i - 1].a, f, A.Validating) && run[i - 1].a.futures[f].publicId == k
    ensures Matches(run[i - 1].a, f) && A.AtPc(run[i].a, f, A.Claiming)
  {
    hide Next;
    StepInRun(run, i);
    var a, b := run[i - 1].a, run[i].a;
    var x :| A.Enabled(a, x) && b == A.Apply(a, x);
    hide IsRun;
    if x.Validate? {
      f := x.f;
    } else {
      OthersDoNotValidate(a, x);
      hide A.Apply, A.Enabled;
    }
  }

  lemma OthersDoNotValidate(a: A.Agents, x: A.Step)
    requires A.Enabled(a, x) && !x.Validate?
    ensures A.Apply(a, x).hist.validated == a.hist.validated
  {
    hide A.Acted, A.CanAct, A.Answer;
  }

  // ---------------------------------------------------------------------------------------------
  // Who is taken off the list
  // ---------------------------------------------------------------------------------------------

  /** The removal that a stopping handler spawns takes whoever is logged in under its id off the list,
      and nobody else. */
  lemma RemovalRemoves(run: seq<State>, i: nat, c: ConnId)
    requires IsRun(run) && 0 < i < |run| && run[i].a.hist.stopRemovals[c] > run[i - 1].a.hist.stopRemovals[c]
    ensures c in run[i - 1].a.conns && run[i - 1].a.conns[c].h.wsState == H.Stopping
    ensures run[i].a.servers == run[i - 1].a.servers - {run[i - 1].a.conns[c].openedAt}
  {
    hide Next;
    InvHolds(run, i - 1);
    assert AS.HandlerKept(run[i - 1].a, c);
    hide Inv;
    StepInRun(run, i);
    var a, b := run[i - 1].a, run[i].a;
    var x :| A.Enabled(a, x) && b == A.Apply(a, x);
    hide IsRun;
    if x.StopRemove? {
      RemovalAtStep(a, x.c, c);
    } else {
      OthersDoNotRemove(a, x);
      hide A.Apply, A.Enabled;
    }
  }

  lemma RemovalAtStep(a: A.Agents, d: ConnId, c: ConnId)
    requires A.CanStopRemove(a, d) && AS.HandlerKept(a, c)
    requires A.AfterStopRemove(a, d).hist.stopRemovals[c] > a.hist.stopRemovals[c]
    ensures c == d && a.conns[c].h.wsState == H.Stopping
    ensures A.AfterStopRemove(a, d).servers == a.servers - {a.conns[c].openedAt}
  {}

  lemma OthersDoNotRemove(a: A.Agents, x: A.Step)
    requires A.Enabled(a, x) && !x.StopRemove?
    ensures A.Apply(a, x).hist.stopRemovals == a.hist.stopRemovals
  {
    hide A.Acted, A.CanAct, A.Answer;
  }

  /** The actor may ask to stop as often as it likes: a running handler begins to stop, one that is stopping
      goes on as it is, and only one that has stopped, and so has had its removal, goes. */
  lemma AsksToStop(run: seq<State>, i: nat, c: ConnId)
    requires IsRun(run) && i < |run| && A.InPhase(run[i].a, c, A.Live)
    ensures var a, b := run[i].a, A.Apply(run[i].a, A.Local(c, A.Stop));
      && (A.InPhase(b, c, A.Closed) <==> a.conns[c].h.wsState == H.Stopped)
      && (A.InPhase(b, c, A.Closed) ==> a.hist.stopRemovals[c] == 1 && H.ShutDownComplete !in a.conns[c].h.queue)
      && (a.conns[c].h.wsState == H.Stopping ==> b == a)
      && (a.conns[c].h.wsState == H.Running ==> A.CanStopRemove(b, c) && b.conns[c].h.wsState == H.Stopping)
  {
    InvHolds(run, i);
    hide IsRun;
    assert AS.HandlerKept(run[i].a, c);
    hide Inv;
  }

  /** Who is not logged in at one instant, but is later, was published in between. */
  lemma {:induction false} BackMeansPublished(run: seq<State>, i: nat, j: nat, k: ServerId)
    requires IsRun(run) && i <= j < |run| && k !in run[i].a.servers && k in run[j].a.servers
    ensures run[j].a.hist.publishedIds[k] > run[i].a.hist.publishedIds[k]
    decreases j
  {
    hide IsRun, AgentNext, SameAgents, Later, LaterAgents;
    StepInRun(run, j);
    if k in run[j - 1].a.servers {
      BackMeansPublished(run, i, j - 1, k);
      PublicationsGrow(run, j - 1, j, k);
    } else {
      PublicationsGrow(run, i, j - 1, k);
      NewServerCounted(run[j - 1].a, run[j].a, k);
    }
  }

  lemma PublicationsGrow(run: seq<State>, i: nat, j: nat, k: ServerId)
    requires IsRun(run) && i <= j < |run|
    ensures run[i].a.hist.publishedIds[k] <= run[j].a.hist.publishedIds[k]
  {
    LaterInRun(run, i, j);
    hide IsRun, LaterRequests;
    Grown(run[i].a.hist, run[j].a.hist, k);
  }

  lemma NewServerCounted(a: A.Agents, b: A.Agents, k: ServerId)
    requires (AgentNext(a, b) || SameAgents(a, b)) && k !in a.servers && k in b.servers
    ensures b.hist.publishedIds[k] > a.hist.publishedIds[k]
  {
    if AgentNext(a, b) {
      var x :| A.Enabled(a, x) && b == A.Apply(a, x);
      if !x.Publish? && !x.StopRemove? {
        ServersLeft(a, x);
      }
      hide A.Acted;
    }
  }

  /** So once a handler's removal has run, its id is logged in again only after a new publication. */
  lemma RemovedUntilPublished(run: seq<State>, i: nat, j: nat, c: ConnId)
    requires IsRun(run) && 0 < i <= j < |run|
    requires run[i].a.hist.stopRemovals[c] > run[i - 1].a.hist.stopRemovals[c]
    ensures c in run[i - 1].a.conns
    ensures var k := run[i - 1].a.conns[c].openedAt;
      k in run[j].a.servers ==> run[j].a.hist.publishedIds[k] > run[i].a.hist.publishedIds[k]
  {
    RemovalRemoves(run, i, c);
    var k := run[i - 1].a.conns[c].openedAt;
    hide IsRun;
    if k in run[j].a.servers {
      BackMeansPublished(run, i, j, k);
    }
  }

  // ---------------------------------------------------------------------------------------------
  // Who may ask to log in
  // ---------------------------------------------------------------------------------------------

  /** An authentication begins only with a websocket that lives and whose handler is not stopping; and it
      begins with the validation. */
  lemma AsksWhileRunning(run: seq<State>, i: nat, f: FutureId)
    requires IsRun(run) && 0 < i < |run| && f !in run[i - 1].a.futures && f in run[i].a.futures
    ensures A.AtPc(run[i].a, f, A.Validating)
    ensures var o := run[i].a.futures[f].owner;
      A.InPhase(run[i - 1].a, o, A.Live) && run[i - 1].a.conns[o].h.wsState == H.Running
  {
    hide Next;
    StepInRun(run, i);
    var a, b := run[i - 1].a, run[i].a;
    var x :| A.Enabled(a, x) && b == A.Apply(a, x);
    hide IsRun;
    if !x.AuthRes? {
      NoNewFuture(a, x);
      hide A.Apply, A.Enabled;
    }
  }

  lemma NoNewFuture(a: A.Agents, x: A.Step)
    requires A.Enabled(a, x) && !x.AuthRes?
    ensures A.Apply(a, x).futures.Keys == a.futures.Keys
  {
    if x.Validate? || x.Claim? || x.Publish? || x.Reply? || x.Cancel? {
      FuturesStepOn(a, x);
    } else {
      assert A.Apply(a, x).futures == a.futures by { hide A.Acted, A.CanAct; }
    }
    hide A.Apply, A.Enabled;
  }

  lemma FuturesStepOn(a: A.Agents, x: A.Step)
    requires A.Enabled(a, x) && (x.Validate? || x.Claim? || x.Publish? || x.Reply? || x.Cancel?)
    ensures A.Apply(a, x).futures.Keys == a.futures.Keys
  {
    hide A.Answer, H.OnReceive, A.At;
  }
}
