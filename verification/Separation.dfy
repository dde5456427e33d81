/**
  Whether an id can be waiting for authentication and logged in at the same time. It can, because
  admission and publication each use two locks one after the other; it cannot when neither of these
  pairs is interleaved with anything else.
*/
module Separation {
  import opened Common
  import opened Agents
  import opened AgentSafety
  import H = Handlers

  ghost predicate Disjoint(a: Agents) { a.unauth.Keys !! a.servers.Keys }

  /** Nobody is between the check and the insertion, or between the claim and the publication. */
  ghost predicate Quiescent(a: Agents) {
    && (forall c :: !InPhase(a, c, Checked))
    && (forall f :: !CanPublish(a, f))
  }

  /** One step that leaves nobody in between, or two steps of which the first does and the second
      ends it. */
  ghost predicate AtomicNext(a: Agents, b: Agents) {
    && Quiescent(a) && Quiescent(b)
    && ((exists s :: Enabled(a, s) && b == Apply(a, s)) || (exists s, t :: TwoSteps(a, b, s, t)))
  }

  ghost predicate TwoSteps(a: Agents, b: Agents, s: Step, t: Step) {
    Enabled(a, s) && Enabled(Apply(a, s), t) && b == Apply(Apply(a, s), t)
  }

  ghost predicate IsAtomicRun(run: seq<Agents>) {
    run != [] && Init(run[0]) && forall i :: 0 < i < |run| ==> AtomicNext(run[i - 1], run[i])
  }

  /** Only these steps put a key into a registry. */
  predicate Registers(s: Step) { s.Admit? || s.Publish? }

  lemma KeysShrink(a: Agents, s: Step)
    requires Enabled(a, s) && !Registers(s)
    ensures Apply(a, s).unauth.Keys <= a.unauth.Keys && Apply(a, s).servers.Keys <= a.servers.Keys
  {
    hide Acted, CanAct, Answer;
  }

  /** The exact condition, step by step: an admission keeps the registries apart if and only if the
      check would still pass ... */
  lemma AdmitKeepsDisjointIff(a: Agents, c: ConnId, started: bool)
    requires Disjoint(a) && CanAdmit(a, c)
    ensures Disjoint(AfterAdmit(a, c, started)) <==> a.conns[c].openedAt !in a.servers
  {
    var k, b := a.conns[c].openedAt, AfterAdmit(a, c, started);
    assert k in b.unauth.Keys;
    assert b.unauth.Keys == a.unauth.Keys + {k} && b.servers.Keys == a.servers.Keys;
    if k in a.servers {
      assert k in b.unauth.Keys * b.servers.Keys;
    }
  }

  /** ... and a publication does if and only if nobody has been admitted under the id since the claim. */
  lemma PublishKeepsDisjointIff(a: Agents, f: FutureId)
    requires Disjoint(a) && CanPublish(a, f)
    ensures Disjoint(AfterPublish(a, f)) <==> a.futures[f].publicId !in a.unauth
  {
    var k, b := a.futures[f].publicId, AfterPublish(a, f);
    assert b.servers.Keys == a.servers.Keys + {k} && b.unauth.Keys == a.unauth.Keys;
    if k in a.unauth {
      assert k in b.unauth.Keys * b.servers.Keys;
    }
  }

  /** From a state where nobody is in between, no single step registers anything. */
  lemma NoRegistrationFromRest(a: Agents, s: Step)
    requires Quiescent(a) && Enabled(a, s)
    ensures !Registers(s)
  {}

  /** If a step leaves somebody in between, then it is either a check that passed or a claim that
      found a sender; and whoever registers next is that same connection or future. */
  lemma WhoIsBetween(a: Agents, s: Step, t: Step)
    requires Quiescent(a) && Enabled(a, s) && Enabled(Apply(a, s), t) && Registers(t)
    ensures t.Admit? ==> s == Local(t.c, Check) && a.conns[t.c].openedAt !in a.servers
    ensures t.Publish? ==> s == Claim(t.f) && a.futures[t.f].publicId in a.unauth
  {
    hide Apply, Quiescent;
    if t.Admit? {
      CheckedBetween(a, s, t.c);
    } else {
      ClaimedBetween(a, s, t.f);
    }
  }

  lemma CheckedBetween(a: Agents, s: Step, c: ConnId)
    requires Quiescent(a) && Enabled(a, s) && InPhase(Apply(a, s), c, Checked)
    ensures s == Local(c, Check) && a.conns[c].openedAt !in a.servers
  {
    assert !InPhase(a, c, Checked);
    hide Quiescent, Answer;
  }

  lemma ClaimedBetween(a: Agents, s: Step, f: FutureId)
    requires Quiescent(a) && Enabled(a, s) && CanPublish(Apply(a, s), f)
    ensures s == Claim(f) && a.futures[f].publicId in a.unauth
  {
    assert !CanPublish(a, f);
    hide Quiescent, Acted, CanAct;
  }

  lemma AtomicKeepsDisjoint(a: Agents, b: Agents)
    requires Disjoint(a) && AtomicNext(a, b)
    ensures Disjoint(b)
  {
    if s :| Enabled(a, s) && b == Apply(a, s) {
      NoRegistrationFromRest(a, s);
      KeysShrink(a, s);
    } else {
      var s, t :| TwoSteps(a, b, s, t);
      TwoStepsKeepDisjoint(a, b, s, t);
    }
  }

  lemma TwoStepsKeepDisjoint(a: Agents, b: Agents, s: Step, t: Step)
    requires Disjoint(a) && Quiescent(a) && TwoSteps(a, b, s, t)
    ensures Disjoint(b)
  {
    var m := Apply(a, s);
    NoRegistrationFromRest(a, s);
    KeysShrink(a, s);
    if Registers(t) {
      WhoIsBetween(a, s, t);
      if t.Admit? {
        AdmitAfterCheck(a, t.c, t.started);
      } else {
        PublishAfterClaim(a, t.f);
      }
    } else {
      hide Apply, Enabled;
      assert b == Apply(m, t);
      KeysShrink(m, t);
    }
  }

  lemma AdmitAfterCheck(a: Agents, c: ConnId, started: bool)
    requires Disjoint(a) && CanAct(a, c, Check) && a.conns[c].openedAt !in a.servers
    requires CanAdmit(WithConn(a, c, Acted(a, c, Check)), c)
    ensures Disjoint(AfterAdmit(WithConn(a, c, Acted(a, c, Check)), c, started))
  {
    AdmitKeepsDisjointIff(WithConn(a, c, Acted(a, c, Check)), c, started);
  }

  lemma PublishAfterClaim(a: Agents, f: FutureId)
    requires Disjoint(a) && CanClaim(a, f) && a.futures[f].publicId in a.unauth
    ensures CanPublish(AfterClaim(a, f), f) && Disjoint(AfterPublish(AfterClaim(a, f), f))
    ensures a.futures[f].publicId !in a.servers && OverwritesNobody(AfterClaim(a, f), f)
  {
    PublishKeepsDisjointIff(AfterClaim(a, f), f);
  }

  /** With both pairs uninterrupted, an id is in at most one registry throughout every run. */
  lemma {:induction false} AtomicRunsStayDisjoint(run: seq<Agents>, i: nat)
    requires IsAtomicRun(run) && i < |run|
    ensures Disjoint(run[i])
  {
    hide AtomicNext, Disjoint, Init;
    if i == 0 {
      InitDisjoint(run[0]);
    } else {
      AtomicRunsStayDisjoint(run, i - 1);
      AtomicKeepsDisjoint(run[i - 1], run[i]);
    }
  }

  /** So a publication never overwrites a logged-in agent: it is the second of two steps whenever it
      happens in such a run, and nobody is logged in under its id then. */
  lemma AtomicPublicationsOverwriteNobody(run: seq<Agents>, i: nat, s: Step, t: Step)
    requires IsAtomicRun(run) && 0 < i < |run|
    ensures Enabled(run[i - 1], s) ==> !s.Publish?
    ensures TwoSteps(run[i - 1], run[i], s, t) && t.Publish? ==> OverwritesNobody(Apply(run[i - 1], s), t.f)
  {
    AtomicRunsStayDisjoint(run, i - 1);
    assert AtomicNext(run[i - 1], run[i]);
    hide IsAtomicRun, Apply, Enabled, Disjoint, Quiescent, OverwritesNobody;
    if Enabled(run[i - 1], s) {
      NoRegistrationFromRest(run[i - 1], s);
    }
    if TwoSteps(run[i - 1], run[i], s, t) && t.Publish? {
      PublishesAtRest(run[i - 1], s, t);
    }
  }

  ghost predicate OverwritesNobody(a: Agents, f: FutureId) {
    f in a.futures && a.futures[f].publicId !in a.servers
  }

  lemma PublishesAtRest(a: Agents, s: Step, t: Step)
    requires Disjoint(a) && Quiescent(a) && Enabled(a, s) && Enabled(Apply(a, s), t) && t.Publish?
    ensures OverwritesNobody(Apply(a, s), t.f)
  {
    WhoIsBetween(a, s, t);
    assert CanClaim(a, t.f) && Apply(a, s) == AfterClaim(a, t.f);
    hide Quiescent, Apply, Enabled, AfterClaim, CanClaim, Disjoint;
    PublishAfterClaim(a, t.f);
  }

  lemma InitDisjoint(a: Agents)
    requires Init(a)
    ensures Disjoint(a)
  {}

  // ---------------------------------------------------------------------------------------------
  // Without that assumption
  // ---------------------------------------------------------------------------------------------

  ghost predicate StepsTo(a: Agents, b: Agents) { exists s :: Enabled(a, s) && b == Apply(a, s) }

  ghost predicate IsStepRun(run: seq<Agents>) {
    run != [] && forall i :: 0 < i < |run| ==> StepsTo(run[i - 1], run[i])
  }

  lemma OneMore(run: seq<Agents>, s: Step) returns (longer: seq<Agents>)
    requires IsStepRun(run) && Enabled(run[|run| - 1], s)
    ensures longer == run + [Apply(run[|run| - 1], s)] && IsStepRun(longer)
  {
    hide Apply, Enabled;
    longer := run + [Apply(run[|run| - 1], s)];
    assert StepsTo(run[|run| - 1], Apply(run[|run| - 1], s));
  }

  /** Two connections open at the same address and both pass the check. */
  lemma BothChecked(a: Agents, k: ServerId) returns (run: seq<Agents>)
    requires Init(a)
    ensures IsStepRun(run) && run[0] == a
    ensures var m := run[|run| - 1];
      && InPhase(m, 0, Checked) && InPhase(m, 1, Checked) && m.conns[0].openedAt == m.conns[1].openedAt == k
      && m.conns[0].h.wsState == H.Running && m.futures == map[] && m.watcher == Idle && m.db == a.db
      && m.conns.Keys == {0, 1} && m.servers == map[] && m.unauth == map[]
      && m.conns[0].h.queue == m.conns[1].h.queue == [H.SendMessage(H.AuthReq(k))]
  {
    run := OneMore([a], Local(0, Open(k)));
    run := OneMore(run, Local(1, Open(k)));
    run := OneMore(run, Local(0, Check));
    run := OneMore(run, Local(1, Check));
  }

  /** One of them is admitted and logs in; then the other is admitted. For every registered id the
      registries can so come to overlap. */
  lemma RaceBreaksSeparation(a: Agents, k: ServerId) returns (run: seq<Agents>)
    requires Init(a) && k in a.db
    ensures IsStepRun(run) && run[0] == a
    ensures k in run[|run| - 1].unauth && k in run[|run| - 1].servers && !Disjoint(run[|run| - 1])
  {
    run := BothChecked(a, k);
    run := LoggedIn(run, k);
    run := OneMore(run, Admit(1, true));
    assert k in run[|run| - 1].unauth.Keys * run[|run| - 1].servers.Keys;
  }

  lemma LoggedIn(run: seq<Agents>, k: ServerId) returns (longer: seq<Agents>)
    requires IsStepRun(run)
    requires var m := run[|run| - 1];
      && InPhase(m, 0, Checked) && InPhase(m, 1, Checked) && m.conns[0].openedAt == m.conns[1].openedAt == k
      && m.conns[0].h.wsState == H.Running && m.futures == map[] && m.watcher == Idle && k in m.db
    ensures IsStepRun(longer) && longer[0] == run[0]
    ensures var m := longer[|longer| - 1];
      k in m.servers && CanAdmit(m, 1) && m.conns[1].openedAt == k
  {
    longer := Validated(run, k);
    longer := OneMore(longer, Claim(0));
    longer := OneMore(longer, Publish(0));
  }

  lemma Validated(run: seq<Agents>, k: ServerId) returns (longer: seq<Agents>)
    requires IsStepRun(run)
    requires var m := run[|run| - 1];
      && InPhase(m, 0, Checked) && InPhase(m, 1, Checked) && m.conns[0].openedAt == m.conns[1].openedAt == k
      && m.conns[0].h.wsState == H.Running && m.futures == map[] && m.watcher == Idle && k in m.db
    ensures IsStepRun(longer) && longer[0] == run[0]
    ensures var m := longer[|longer| - 1];
      && InPhase(m, 1, Checked) && m.conns[1].openedAt == k && m.watcher == Idle
      && CanClaim(m, 0) && m.futures[0].publicId == k && k in m.unauth
  {
    longer := OneMore(run, Admit(0, true));
    longer := OneMore(longer, AuthRes(0, 0, k, run[|run| - 1].db[k]));
    longer := OneMore(longer, Validate(0, false));
  }
}
