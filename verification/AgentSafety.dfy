/** What every step of the agents' transition system keeps. */
module AgentSafety {
  import opened Common
  import opened Handlers
  import opened Agents

  // ---------------------------------------------------------------------------------------------
  // Where a sender is, and under which id
  // ---------------------------------------------------------------------------------------------

  ghost predicate InUnauth(a: Agents, c: ConnId) {
    c in a.conns && a.conns[c].openedAt in a.unauth && a.unauth[a.conns[c].openedAt] == c
  }

  ghost predicate InServers(a: Agents, c: ConnId) {
    c in a.conns && a.conns[c].openedAt in a.servers && a.servers[a.conns[c].openedAt] == c
  }

  ghost predicate Carries(a: Agents, f: FutureId, c: ConnId) { AtPc(a, f, Publishing(c)) }

  ghost predicate InFlight(a: Agents, c: ConnId) { exists f :: Carries(a, f, c) }

  ghost predicate WasAdmitted(a: Agents, c: ConnId) { c in a.conns && a.hist.admitted[c] > 0 }

  /** The connection is not yet past the point of its admission. */
  ghost predicate BeforeAdmission(a: Agents, c: ConnId) {
    c !in a.conns || a.conns[c].phase == Opened || a.conns[c].phase == Checked
  }

  ghost predicate FiledIn(a: Agents, m: map<ServerId, ConnId>) {
    forall k :: k in m ==> WasAdmitted(a, m[k]) && a.conns[m[k]].openedAt == k
  }

  /** Every registered sender is filed under the id its websocket was opened with. */
  ghost predicate Filed(a: Agents) {
    && FiledIn(a, a.unauth) && FiledIn(a, a.servers)
    && (forall f, c :: Carries(a, f, c) ==> WasAdmitted(a, c) && a.conns[c].openedAt == a.futures[f].publicId)
    && (forall f :: f in a.futures ==> WasAdmitted(a, a.futures[f].owner))
    && (a.watcher.Closing? ==> WasAdmitted(a, a.watcher.conn))
    && (forall c :: c in a.conns && a.conns[c].phase == Live ==> WasAdmitted(a, c))
  }

  lemma FiledInit(a: Agents)
    requires Init(a)
    ensures Filed(a)
  {}

  /** `b` files nothing that `a` does not. */
  ghost predicate NothingNew(a: Agents, b: Agents) {
    && (forall c :: c in a.conns ==> c in b.conns && b.conns[c].openedAt == a.conns[c].openedAt)
    && b.hist.admitted == a.hist.admitted
    && (forall k :: k in b.unauth ==> k in a.unauth && b.unauth[k] == a.unauth[k])
    && (forall k :: k in b.servers ==> k in a.servers && b.servers[k] == a.servers[k])
    && (forall f :: f in b.futures ==> f in a.futures)
    && (forall f :: f in b.futures ==> b.futures[f].owner == a.futures[f].owner)
    && (forall f :: f in b.futures ==> b.futures[f].publicId == a.futures[f].publicId)
    && (forall f, c :: Carries(b, f, c) ==> Carries(a, f, c))
    && (b.watcher.Closing? ==> b.watcher == a.watcher)
    && (forall c :: c in b.conns && b.conns[c].phase == Live ==> InPhase(a, c, Live))
  }

  lemma FiledFrame(a: Agents, b: Agents)
    requires Filed(a) && NothingNew(a, b)
    ensures Filed(b)
  {
    SameAdmissions(a, b);
    hide WasAdmitted;
  }

  lemma SameAdmissions(a: Agents, b: Agents)
    requires b.hist.admitted == a.hist.admitted && forall c :: c in a.conns ==> c in b.conns
    ensures forall c :: WasAdmitted(a, c) ==> WasAdmitted(b, c)
  {}

  lemma AdmissionCounts(a: Agents, c: ConnId, started: bool)
    requires CanAdmit(a, c)
    ensures var b := AfterAdmit(a, c, started);
      WasAdmitted(b, c) && forall d :: WasAdmitted(a, d) ==> WasAdmitted(b, d)
  {}

  /** Steps of one connection keep its id, and neither start its handler nor set it back. */
  lemma ActedKeeps(a: Agents, c: ConnId, act: LocalAct)
    requires CanAct(a, c, act)
    ensures var b := WithConn(a, c, Acted(a, c, act));
      && (c in a.conns ==> b.conns[c].openedAt == a.conns[c].openedAt)
      && (forall d :: BeforeAdmission(b, d) ==> BeforeAdmission(a, d))
      && (forall d :: d in b.conns && b.conns[d].phase == Live ==> InPhase(a, d, Live))
  {}

  lemma FiledLocal(a: Agents, c: ConnId, act: LocalAct)
    requires Filed(a) && CanAct(a, c, act)
    ensures Filed(WithConn(a, c, Acted(a, c, act)))
  {
    ActedKeeps(a, c, act);
    hide Acted, CanAct, Filed;
    FiledFrame(a, WithConn(a, c, Acted(a, c, act)));
  }

  lemma CarriersLeft(a: Agents, b: Agents, but: set<FutureId>)
    requires forall f :: f in b.futures && f !in but ==> f in a.futures && b.futures[f] == a.futures[f]
    ensures forall f, c :: f !in but && Carries(b, f, c) ==> Carries(a, f, c)
  {}

  lemma AdmitShape(a: Agents, c: ConnId, started: bool)
    requires CanAdmit(a, c)
    ensures var b := AfterAdmit(a, c, started);
      && c in a.conns && b.servers == a.servers && b.futures == a.futures && b.watcher == a.watcher
      && b.unauth == a.unauth[a.conns[c].openedAt := c]
      && c in b.conns && b.conns == a.conns[c := b.conns[c]] && b.conns[c].openedAt == a.conns[c].openedAt
      && (b.conns[c].phase == Live || b.conns[c].phase == Closed)
  {}

  lemma AdmittedIsFiled(a: Agents, c: ConnId, started: bool)
    requires Filed(a) && CanAdmit(a, c)
    ensures var b := AfterAdmit(a, c, started); FiledIn(b, b.unauth) && FiledIn(b, b.servers)
  {
    AdmissionCounts(a, c, started);
    AdmitShape(a, c, started);
    hide AfterAdmit, CanAdmit, WasAdmitted, Carries;
  }

  lemma FiledAdmit(a: Agents, c: ConnId, started: bool)
    requires Filed(a) && CanAdmit(a, c)
    ensures Filed(AfterAdmit(a, c, started))
  {
    AdmittedIsFiled(a, c, started);
    AdmissionCounts(a, c, started);
    AdmitShape(a, c, started);
    hide AfterAdmit, CanAdmit, WasAdmitted, FiledIn;
    CarriersLeft(a, AfterAdmit(a, c, started), {});
  }

  lemma FiledStopRemove(a: Agents, c: ConnId)
    requires Filed(a) && CanStopRemove(a, c)
    ensures Filed(AfterStopRemove(a, c))
  {
    hide Filed;
    FiledFrame(a, AfterStopRemove(a, c));
  }

  lemma FiledAuthRes(a: Agents, c: ConnId, f: FutureId, p: ServerId, passcode: Passcode)
    requires Filed(a) && CanAuthRes(a, c, f)
    ensures Filed(AfterAuthRes(a, c, f, p, passcode))
  {
    SameAdmissions(a, AfterAuthRes(a, c, f, p, passcode));
    hide WasAdmitted;
    assert forall g, d :: Carries(AfterAuthRes(a, c, f, p, passcode), g, d) ==> Carries(a, g, d);
  }

  lemma FiledPc(a: Agents, f: FutureId, pc: FuturePc, hist: History)
    requires Filed(a) && f in a.futures && !pc.Publishing? && hist.admitted == a.hist.admitted
    ensures Filed(WithPc(a, f, pc).(hist := hist))
  {
    hide Filed;
    FiledFrame(a, WithPc(a, f, pc).(hist := hist));
  }

  lemma FiledValidate(a: Agents, f: FutureId, dbFails: bool)
    requires Filed(a) && AtPc(a, f, Validating)
    ensures Filed(AfterValidate(a, f, dbFails))
  {
    var b := AfterValidate(a, f, dbFails);
    FiledPc(a, f, b.futures[f].pc, b.hist);
    hide Filed;
    assert b == WithPc(a, f, b.futures[f].pc).(hist := b.hist);
  }

  lemma FiledCancel(a: Agents, f: FutureId)
    requires Filed(a) && CanCancel(a, f)
    ensures Filed(AfterCancel(a, f))
  {
    FiledPc(a, f, Finished, AfterCancel(a, f).hist);
  }

  lemma ClaimShape(a: Agents, f: FutureId)
    requires CanClaim(a, f)
    ensures var b, p := AfterClaim(a, f), a.futures[f].publicId;
      && b.conns == a.conns && b.servers == a.servers && b.watcher == a.watcher && b.hist.admitted == a.hist.admitted
      && b.unauth == a.unauth - {p} && f in b.futures && b.futures == a.futures[f := b.futures[f]]
      && b.futures[f] == a.futures[f].(pc := if p in a.unauth then Publishing(a.unauth[p]) else Finished)
  {}

  lemma FiledClaim(a: Agents, f: FutureId)
    requires Filed(a) && CanClaim(a, f)
    ensures Filed(AfterClaim(a, f))
  {
    var b := AfterClaim(a, f);
    ClaimShape(a, f);
    hide AfterClaim, CanClaim, WasAdmitted;
    SameAdmissions(a, b);
    CarriersLeft(a, b, {f});
  }

  lemma FiledPublish(a: Agents, f: FutureId)
    requires Filed(a) && CanPublish(a, f)
    ensures Filed(AfterPublish(a, f))
  {
    assert Carries(a, f, a.futures[f].pc.sender);
    SameAdmissions(a, AfterPublish(a, f));
    hide WasAdmitted;
    CarriersLeft(a, AfterPublish(a, f), {f});
  }

  lemma FiledSent(a: Agents, o: ConnId, m: InternalComm)
    requires Filed(a) && o in a.conns
    ensures Filed(Sent(a, o, m))
  {
    hide Filed;
    FiledFrame(a, Sent(a, o, m));
  }

  lemma FiledReply(a: Agents, f: FutureId)
    requires Filed(a) && CanReply(a, f)
    ensures Filed(AfterReply(a, f))
  {
    var o, m, pc := a.futures[f].owner, Answer(a.futures[f].pc).0, Answer(a.futures[f].pc).1;
    FiledSent(a, o, m);
    FiledPc(Sent(a, o, m), f, pc, a.hist);
    hide Filed, Answer;
    assert AfterReply(a, f) == WithPc(Sent(a, o, m), f, pc).(hist := a.hist);
  }

  lemma FiledWatcher(a: Agents, w: Watcher)
    requires Filed(a) && !w.Closing?
    ensures Filed(a.(watcher := w))
  {
    hide Filed;
    FiledFrame(a, a.(watcher := w));
  }

  lemma FiledSweepPop(a: Agents, k: ServerId)
    requires Filed(a) && CanSweepPop(a, k)
    ensures Filed(AfterSweepPop(a, k))
  {
    SameAdmissions(a, AfterSweepPop(a, k));
    hide WasAdmitted;
    CarriersLeft(a, AfterSweepPop(a, k), {});
  }

  lemma FiledSweepSend(a: Agents)
    requires Filed(a) && CanSweepSend(a)
    ensures Filed(AfterSweepSend(a))
  {
    FiledSent(a, a.watcher.conn, CloseConnection);
    hide Filed, Sent;
    FiledWatcher(Sent(a, a.watcher.conn, CloseConnection), Sweeping);
    FiledWatcher(a, Crashed);
  }

  lemma FiledRewrite(a: Agents, db: map<ServerId, Passcode>)
    requires Filed(a)
    ensures Filed(a.(db := db))
  {
    hide Filed;
    FiledFrame(a, a.(db := db));
  }

  lemma FiledStep(a: Agents, s: Step)
    requires Filed(a) && Enabled(a, s)
    ensures Filed(Apply(a, s))
  {
    hide Filed, WithConn, CanAct, Acted, CanAdmit, AfterAdmit, CanStopRemove, AfterStopRemove, CanAuthRes, AfterAuthRes,
      AfterValidate, CanClaim, AfterClaim, CanPublish, AfterPublish, CanReply, AfterReply, CanCancel, AfterCancel,
      CanSweepPop, AfterSweepPop, CanSweepSend, AfterSweepSend;
    match s
    case Local(c, act) => FiledLocal(a, c, act);
    case Admit(c, started) => FiledAdmit(a, c, started);
    case StopRemove(c) => FiledStopRemove(a, c);
    case AuthRes(c, f, p, passcode) => FiledAuthRes(a, c, f, p, passcode);
    case Validate(f, dbFails) => FiledValidate(a, f, dbFails);
    case Claim(f) => FiledClaim(a, f);
    case Publish(f) => FiledPublish(a, f);
    case Reply(f) => FiledReply(a, f);
    case Cancel(f) => FiledCancel(a, f);
    case SweepStart => FiledWatcher(a, Sweeping);
    case SweepPop(k) => FiledSweepPop(a, k);
    case SweepSend => FiledSweepSend(a);
    case SweepEnd => FiledWatcher(a, Idle);
    case Rewrite(db) => FiledRewrite(a, db);
  }

  // ---------------------------------------------------------------------------------------------
  // The ledger of senders
  // ---------------------------------------------------------------------------------------------

  /** The books of connection `c` balance: its sender is admitted at most once, and what was put
      into each place is still there or has left it by exactly one of the ways out. */
  ghost predicate Balanced(a: Agents, c: ConnId) {
    var h := a.hist;
    && h.admitted[c] <= One(!BeforeAdmission(a, c))
    && h.admitted[c] == h.overwritten[c] + h.expired[c] + h.claimed[c] + One(InUnauth(a, c))
    && h.claimed[c] == h.published[c] + h.abandoned[c] + One(InFlight(a, c))
    && h.published[c] == h.unpublished[c] + One(InServers(a, c))
    && (forall f, g :: Carries(a, f, c) && Carries(a, g, c) ==> f == g)
  }

  lemma BalancedInit(a: Agents, c: ConnId)
    requires Init(a)
    ensures Balanced(a, c)
  {}

  /** Nothing that the books of `c` mention has changed. */
  ghost predicate SameBooks(a: Agents, b: Agents, c: ConnId) {
    && b.hist == a.hist.(stopRemovals := b.hist.stopRemovals, validated := b.hist.validated)
    && (InUnauth(b, c) <==> InUnauth(a, c)) && (InServers(b, c) <==> InServers(a, c))
    && (BeforeAdmission(b, c) ==> BeforeAdmission(a, c))
    && (forall g :: Carries(b, g, c) <==> Carries(a, g, c))
  }

  lemma SameCarriers(a: Agents, b: Agents, c: ConnId)
    requires forall g :: Carries(b, g, c) <==> Carries(a, g, c)
    ensures InFlight(b, c) <==> InFlight(a, c)
  {
    if InFlight(a, c) {
      var g :| Carries(a, g, c);
      assert Carries(b, g, c);
    }
  }

  lemma BalancedFrame(a: Agents, b: Agents, c: ConnId)
    requires Balanced(a, c) && SameBooks(a, b, c)
    ensures Balanced(b, c)
  {
    SameCarriers(a, b, c);
    hide InFlight;
  }

  lemma BalancedLocal(a: Agents, d: ConnId, act: LocalAct, c: ConnId)
    requires Filed(a) && Balanced(a, c) && CanAct(a, d, act)
    ensures Balanced(WithConn(a, d, Acted(a, d, act)), c)
  {
    ActedKeeps(a, d, act);
    hide Acted, Balanced;
    assert d !in a.conns ==> !InUnauth(WithConn(a, d, Acted(a, d, act)), d);
    BalancedFrame(a, WithConn(a, d, Acted(a, d, act)), c);
  }

  lemma BalancedAdmit(a: Agents, d: ConnId, started: bool, c: ConnId)
    requires Filed(a) && Balanced(a, c) && CanAdmit(a, d)
    ensures Balanced(AfterAdmit(a, d, started), c)
  {
    SameCarriers(a, AfterAdmit(a, d, started), c);
    hide InFlight;
  }

  lemma BalancedStopRemove(a: Agents, d: ConnId, c: ConnId)
    requires Filed(a) && Balanced(a, c) && CanStopRemove(a, d)
    ensures Balanced(AfterStopRemove(a, d), c)
  {
    SameCarriers(a, AfterStopRemove(a, d), c);
    hide InFlight;
  }

  lemma BalancedAuthRes(a: Agents, d: ConnId, f: FutureId, p: ServerId, passcode: Passcode, c: ConnId)
    requires Balanced(a, c) && CanAuthRes(a, d, f)
    ensures Balanced(AfterAuthRes(a, d, f, p, passcode), c)
  {
    hide Balanced;
    BalancedFrame(a, AfterAuthRes(a, d, f, p, passcode), c);
  }

  lemma BalancedPc(a: Agents, f: FutureId, pc: FuturePc, validated: multiset<ServerId>, c: ConnId)
    requires Balanced(a, c) && f in a.futures && !a.futures[f].pc.Publishing? && !pc.Publishing?
    ensures Balanced(WithPc(a, f, pc).(hist := a.hist.(validated := validated)), c)
  {
    hide Balanced;
    BalancedFrame(a, WithPc(a, f, pc).(hist := a.hist.(validated := validated)), c);
  }

  lemma BalancedValidate(a: Agents, f: FutureId, dbFails: bool, c: ConnId)
    requires Balanced(a, c) && AtPc(a, f, Validating)
    ensures Balanced(AfterValidate(a, f, dbFails), c)
  {
    var b := AfterValidate(a, f, dbFails);
    BalancedPc(a, f, b.futures[f].pc, b.hist.validated, c);
    hide Balanced;
    assert b == WithPc(a, f, b.futures[f].pc).(hist := a.hist.(validated := b.hist.validated));
  }

  lemma BalancedClaim(a: Agents, f: FutureId, c: ConnId)
    requires Filed(a) && Balanced(a, c) && CanClaim(a, f)
    ensures Balanced(AfterClaim(a, f), c)
  {
    var b := AfterClaim(a, f);
    var p := a.futures[f].publicId;
    forall g | g != f ensures Carries(b, g, c) <==> Carries(a, g, c) {}
    if p in a.unauth && a.unauth[p] == c {
      assert InUnauth(a, c) && !InFlight(a, c);
      assert Carries(b, f, c);
    } else {
      assert !Carries(a, f, c) && !Carries(b, f, c);
      SameCarriers(a, b, c);
    }
  }

  lemma BalancedPublish(a: Agents, f: FutureId, c: ConnId)
    requires Filed(a) && Balanced(a, c) && CanPublish(a, f)
    ensures Balanced(AfterPublish(a, f), c)
  {
    var b := AfterPublish(a, f);
    var d := a.futures[f].pc.sender;
    assert Carries(a, f, d) && !Carries(b, f, c);
    forall g | g != f ensures Carries(b, g, c) <==> Carries(a, g, c) {}
    if d == c {
      assert InFlight(a, c) && !InServers(a, c);
      assert !InFlight(b, c);
    } else {
      SameCarriers(a, b, c);
    }
  }

  lemma BalancedCancel(a: Agents, f: FutureId, c: ConnId)
    requires Balanced(a, c) && CanCancel(a, f)
    ensures Balanced(AfterCancel(a, f), c)
  {
    var b := AfterCancel(a, f);
    forall g | g != f ensures Carries(b, g, c) <==> Carries(a, g, c) {}
    if Carries(a, f, c) {
      assert InFlight(a, c) && !InFlight(b, c);
    } else {
      SameCarriers(a, b, c);
    }
  }

  lemma BalancedSent(a: Agents, o: ConnId, m: InternalComm, c: ConnId)
    requires Balanced(a, c) && o in a.conns
    ensures Balanced(Sent(a, o, m), c)
  {
    hide Balanced;
    BalancedFrame(a, Sent(a, o, m), c);
  }

  lemma BalancedReply(a: Agents, f: FutureId, c: ConnId)
    requires Balanced(a, c) && CanReply(a, f)
    ensures Balanced(AfterReply(a, f), c)
  {
    var o, m, pc := a.futures[f].owner, Answer(a.futures[f].pc).0, Answer(a.futures[f].pc).1;
    BalancedSent(a, o, m, c);
    BalancedPc(Sent(a, o, m), f, pc, a.hist.validated, c);
    hide Balanced, Answer;
    assert AfterReply(a, f) == WithPc(Sent(a, o, m), f, pc).(hist := a.hist.(validated := a.hist.validated));
  }

  lemma BalancedWatcher(a: Agents, w: Watcher, db: map<ServerId, Passcode>, c: ConnId)
    requires Balanced(a, c)
    ensures Balanced(a.(watcher := w, db := db), c)
  {
    hide Balanced;
    BalancedFrame(a, a.(watcher := w, db := db), c);
  }

  lemma BalancedSweepPop(a: Agents, k: ServerId, c: ConnId)
    requires Filed(a) && Balanced(a, c) && CanSweepPop(a, k)
    ensures Balanced(AfterSweepPop(a, k), c)
  {
    SameCarriers(a, AfterSweepPop(a, k), c);
    hide InFlight;
  }

  lemma BalancedSweepSend(a: Agents, c: ConnId)
    requires Balanced(a, c) && CanSweepSend(a)
    ensures Balanced(AfterSweepSend(a), c)
  {
    var sent := Sent(a, a.watcher.conn, CloseConnection);
    BalancedSent(a, a.watcher.conn, CloseConnection, c);
    BalancedWatcher(sent, Sweeping, sent.db, c);
    BalancedWatcher(a, Crashed, a.db, c);
    hide Balanced, Sent;
  }

  lemma BalancedStep(a: Agents, s: Step, c: ConnId)
    requires Filed(a) && Balanced(a, c) && Enabled(a, s)
    ensures Balanced(Apply(a, s), c)
  {
    hide Filed, WithConn, CanAct, Acted, CanAdmit, AfterAdmit, CanStopRemove, AfterStopRemove, CanAuthRes, AfterAuthRes,
      AfterValidate, CanClaim, AfterClaim, CanPublish, AfterPublish, CanReply, AfterReply, CanCancel, AfterCancel,
      CanSweepPop, AfterSweepPop, CanSweepSend, AfterSweepSend, Balanced;
    match s
    case Local(d, act) => BalancedLocal(a, d, act, c);
    case Admit(d, started) => BalancedAdmit(a, d, started, c);
    case StopRemove(d) => BalancedStopRemove(a, d, c);
    case AuthRes(d, f, p, passcode) => BalancedAuthRes(a, d, f, p, passcode, c);
    case Validate(f, dbFails) => BalancedValidate(a, f, dbFails, c);
    case Claim(f) => BalancedClaim(a, f, c);
    case Publish(f) => BalancedPublish(a, f, c);
    case Reply(f) => BalancedReply(a, f, c);
    case Cancel(f) => BalancedCancel(a, f, c);
    case SweepStart => BalancedWatcher(a, Sweeping, a.db, c);
    case SweepPop(k) => BalancedSweepPop(a, k, c);
    case SweepSend => BalancedSweepSend(a, c);
    case SweepEnd => BalancedWatcher(a, Idle, a.db, c);
    case Rewrite(db) => BalancedWatcher(a, a.watcher, db, c);
  }

  /** A sender sits in at most one place, once; and a settled one is nowhere. */
  lemma LinearOwnership(a: Agents, c: ConnId)
    requires Balanced(a, c)
    ensures One(InUnauth(a, c)) + One(InFlight(a, c)) + One(InServers(a, c)) <= 1
    ensures var h := a.hist; h.overwritten[c] + h.expired[c] + h.abandoned[c] + h.unpublished[c] <= 1
    ensures var h := a.hist;
      h.overwritten[c] + h.expired[c] + h.abandoned[c] + h.unpublished[c] == 1 ==>
        !InUnauth(a, c) && !InFlight(a, c) && !InServers(a, c)
    ensures var h := a.hist;
      h.admitted[c] == 1 && !InUnauth(a, c) && !InFlight(a, c) && !InServers(a, c) ==>
        h.overwritten[c] + h.expired[c] + h.abandoned[c] + h.unpublished[c] == 1
  {}

  // ---------------------------------------------------------------------------------------------
  // Authentication
  // ---------------------------------------------------------------------------------------------

  /** Futures that have validated `k` and may yet publish under it. */
  ghost function Pending(a: Agents, k: ServerId): set<FutureId> {
    set f | f in a.futures && a.futures[f].publicId == k && (a.futures[f].pc == Claiming || a.futures[f].pc.Publishing?)
  }

  /** Publications under `k`, made and still possible, never outnumber its successful validations. */
  ghost predicate Authorised(a: Agents, k: ServerId) {
    && a.hist.publishedIds[k] + |Pending(a, k)| <= a.hist.validated[k]
    && (a.hist.validated[k] > 0 ==> k in a.db)
    && (k in a.servers ==> a.hist.publishedIds[k] > 0)
  }

  lemma AuthorisedInit(a: Agents, k: ServerId)
    requires Init(a)
    ensures Authorised(a, k)
  {
    assert Pending(a, k) == {};
  }

  lemma AuthorisedFrame(a: Agents, b: Agents, k: ServerId)
    requires Authorised(a, k) && b.futures == a.futures
    requires b.hist.publishedIds == a.hist.publishedIds && b.hist.validated == a.hist.validated
    requires (k in a.db ==> k in b.db) && (k in b.servers ==> k in a.servers)
    ensures Authorised(b, k)
  {
    assert Pending(b, k) == Pending(a, k);
  }

  /** Moving one future moves at most that one in or out of the pending ones. */
  lemma PendingMoves(a: Agents, b: Agents, f: FutureId, k: ServerId)
    requires f in a.futures && f in b.futures && b.futures == a.futures[f := b.futures[f]]
    requires b.futures[f].publicId == a.futures[f].publicId
    ensures |Pending(b, k)| + One(f in Pending(a, k)) == |Pending(a, k)| + One(f in Pending(b, k))
  {
    var rest := Pending(a, k) - {f};
    assert Pending(b, k) - {f} == rest;
    assert Pending(a, k) == if f in Pending(a, k) then rest + {f} else rest;
    assert Pending(b, k) == if f in Pending(b, k) then rest + {f} else rest;
  }

  lemma AuthorisedAuthRes(a: Agents, c: ConnId, f: FutureId, p: ServerId, passcode: Passcode, k: ServerId)
    requires Authorised(a, k) && CanAuthRes(a, c, f)
    ensures Authorised(AfterAuthRes(a, c, f, p, passcode), k)
  {
    assert Pending(AfterAuthRes(a, c, f, p, passcode), k) == Pending(a, k);
  }

  lemma AuthorisedValidate(a: Agents, f: FutureId, dbFails: bool, k: ServerId)
    requires Authorised(a, k) && AtPc(a, f, Validating)
    ensures Authorised(AfterValidate(a, f, dbFails), k)
  {
    PendingMoves(a, AfterValidate(a, f, dbFails), f, k);
  }

  lemma AuthorisedClaim(a: Agents, f: FutureId, k: ServerId)
    requires Authorised(a, k) && CanClaim(a, f)
    ensures Authorised(AfterClaim(a, f), k)
  {
    PendingMoves(a, AfterClaim(a, f), f, k);
  }

  lemma AuthorisedPublish(a: Agents, f: FutureId, k: ServerId)
    requires Authorised(a, k) && CanPublish(a, f)
    ensures Authorised(AfterPublish(a, f), k)
  {
    PendingMoves(a, AfterPublish(a, f), f, k);
  }

  lemma AuthorisedCancel(a: Agents, f: FutureId, k: ServerId)
    requires Authorised(a, k) && CanCancel(a, f)
    ensures Authorised(AfterCancel(a, f), k)
  {
    PendingMoves(a, AfterCancel(a, f), f, k);
  }

  lemma AuthorisedReply(a: Agents, f: FutureId, k: ServerId)
    requires Authorised(a, k) && CanReply(a, f)
    ensures Authorised(AfterReply(a, f), k)
  {
    var b := AfterReply(a, f);
    PendingMoves(a, b, f, k);
    hide Pending;
    assert b == a.(conns := b.conns, futures := b.futures);
  }

  lemma AuthorisedSweepSend(a: Agents, k: ServerId)
    requires Authorised(a, k) && CanSweepSend(a)
    ensures Authorised(AfterSweepSend(a), k)
  {
    hide Authorised;
    AuthorisedFrame(a, AfterSweepSend(a), k);
  }

  lemma AuthorisedRegistries(a: Agents, s: Step, k: ServerId)
    requires Authorised(a, k) && Enabled(a, s) && (s.Local? || s.Admit? || s.StopRemove? || s.SweepPop?)
    ensures Authorised(Apply(a, s), k)
  {
    hide Authorised, Acted, CanAct;
    AuthorisedFrame(a, Apply(a, s), k);
  }

  lemma AuthorisedStep(a: Agents, s: Step, k: ServerId)
    requires Authorised(a, k) && Enabled(a, s)
    ensures Authorised(Apply(a, s), k)
  {
    hide Filed, WithConn, CanAct, Acted, CanAdmit, AfterAdmit, CanStopRemove, AfterStopRemove, CanAuthRes, AfterAuthRes,
      AfterValidate, CanClaim, AfterClaim, CanPublish, AfterPublish, CanReply, AfterReply, CanCancel, AfterCancel,
      CanSweepPop, AfterSweepPop, CanSweepSend, AfterSweepSend, Authorised;
    match s
    case AuthRes(d, f, p, passcode) => AuthorisedAuthRes(a, d, f, p, passcode, k);
    case Validate(f, dbFails) => AuthorisedValidate(a, f, dbFails, k);
    case Claim(f) => AuthorisedClaim(a, f, k);
    case Publish(f) => AuthorisedPublish(a, f, k);
    case Reply(f) => AuthorisedReply(a, f, k);
    case Cancel(f) => AuthorisedCancel(a, f, k);
    case SweepStart => AuthorisedFrame(a, Apply(a, s), k);
    case SweepSend => AuthorisedSweepSend(a, k);
    case SweepEnd => AuthorisedFrame(a, Apply(a, s), k);
    case Rewrite(_) => AuthorisedFrame(a, Apply(a, s), k);
    case _ => AuthorisedRegistries(a, s, k);
  }

  // ---------------------------------------------------------------------------------------------
  // Handlers
  // ---------------------------------------------------------------------------------------------

  /** Every handler has its shutdown token, and its removal ran if the token says so. */
  ghost predicate HandlerKept(a: Agents, c: ConnId) {
    c in a.conns ==>
      && TokenKept(a.conns[c].h)
      && a.hist.stopRemovals[c] == One(a.conns[c].h.stop == RemovalDone || a.conns[c].h.stop == Reported)
      && (a.conns[c].h.wsState != Running ==> !BeforeAdmission(a, c))
  }

  /** A connection that does not exist yet has had no removal. */
  ghost predicate Unheard(a: Agents, c: ConnId) { c !in a.conns ==> a.hist.stopRemovals[c] == 0 }

  lemma HandlerKeptLocal(a: Agents, d: ConnId, act: LocalAct, c: ConnId)
    requires HandlerKept(a, c) && Unheard(a, c) && CanAct(a, d, act)
    ensures HandlerKept(WithConn(a, d, Acted(a, d, act)), c) && Unheard(WithConn(a, d, Acted(a, d, act)), c)
  {
    if c == d && c in a.conns {
      match act
      case Stop => StoppingKeepsToken(a.conns[c].h);
      case StopReport => ReportKeepsToken(a.conns[c].h);
      case Drain => DrainKeepsToken(a.conns[c].h);
      case _ =>
    }
  }

  lemma HandlerKeptAdmit(a: Agents, d: ConnId, started: bool, c: ConnId)
    requires HandlerKept(a, c) && Unheard(a, c) && CanAdmit(a, d)
    ensures HandlerKept(AfterAdmit(a, d, started), c) && Unheard(AfterAdmit(a, d, started), c)
  {
    hide TokenKept;
  }

  lemma HandlerKeptStopRemove(a: Agents, d: ConnId, c: ConnId)
    requires HandlerKept(a, c) && Unheard(a, c) && CanStopRemove(a, d)
    ensures HandlerKept(AfterStopRemove(a, d), c) && Unheard(AfterStopRemove(a, d), c)
  {
    if c == d {
      RemovedKeepsToken(a.conns[c].h);
    }
    hide Tokens;
  }

  lemma HandlerKeptSent(a: Agents, o: ConnId, m: InternalComm, c: ConnId)
    requires HandlerKept(a, c) && Unheard(a, c) && o in a.conns && m != ShutDownComplete
    ensures HandlerKept(Sent(a, o, m), c) && Unheard(Sent(a, o, m), c)
  {
    if c in a.conns {
      ReceiveKeepsToken(a.conns[c].h, m);
    }
    hide TokenKept;
  }

  lemma HandlerKeptReply(a: Agents, f: FutureId, c: ConnId)
    requires HandlerKept(a, c) && Unheard(a, c) && CanReply(a, f)
    ensures HandlerKept(AfterReply(a, f), c) && Unheard(AfterReply(a, f), c)
  {
    HandlerKeptSent(a, a.futures[f].owner, Answer(a.futures[f].pc).0, c);
    hide TokenKept, Sent;
  }

  lemma HandlerKeptSweepSend(a: Agents, c: ConnId)
    requires HandlerKept(a, c) && Unheard(a, c) && CanSweepSend(a)
    ensures HandlerKept(AfterSweepSend(a), c) && Unheard(AfterSweepSend(a), c)
  {
    HandlerKeptSent(a, a.watcher.conn, CloseConnection, c);
    hide TokenKept, Sent;
  }

  /** The other steps leave every connection as it is. */
  lemma HandlerKeptOther(a: Agents, s: Step, c: ConnId)
    requires HandlerKept(a, c) && Unheard(a, c) && Enabled(a, s)
    requires !s.Local? && !s.Admit? && !s.StopRemove? && !s.Reply? && !s.SweepSend?
    ensures HandlerKept(Apply(a, s), c) && Unheard(Apply(a, s), c)
  {
    SameHandlers(a, s);
    hide TokenKept, Apply, Enabled;
  }

  lemma SameHandlers(a: Agents, s: Step)
    requires Enabled(a, s) && !s.Local? && !s.Admit? && !s.StopRemove? && !s.Reply? && !s.SweepSend?
    ensures Apply(a, s).conns == a.conns && Apply(a, s).hist.stopRemovals == a.hist.stopRemovals
  {
    hide AfterValidate, AfterClaim, AfterPublish, AfterCancel, AfterAuthRes, AfterSweepPop;
    match s
    case AuthRes(c, f, p, passcode) => AuthResKeepsHandlers(a, c, f, p, passcode);
    case Validate(f, dbFails) => ValidateKeepsHandlers(a, f, dbFails);
    case Claim(f) => ClaimKeepsHandlers(a, f);
    case Publish(f) => PublishKeepsHandlers(a, f);
    case Cancel(f) => CancelKeepsHandlers(a, f);
    case SweepPop(k) => SweepPopKeepsHandlers(a, k);
    case _ =>
  }

  lemma AuthResKeepsHandlers(a: Agents, c: ConnId, f: FutureId, p: ServerId, passcode: Passcode)
    requires CanAuthRes(a, c, f)
    ensures var b := AfterAuthRes(a, c, f, p, passcode);
      b.conns == a.conns && b.hist == a.hist
  {}

  lemma ValidateKeepsHandlers(a: Agents, f: FutureId, dbFails: bool)
    requires AtPc(a, f, Validating)
    ensures var b := AfterValidate(a, f, dbFails);
      b.conns == a.conns && b.hist.stopRemovals == a.hist.stopRemovals
  {}

  lemma ClaimKeepsHandlers(a: Agents, f: FutureId)
    requires CanClaim(a, f)
    ensures var b := AfterClaim(a, f);
      b.conns == a.conns && b.hist.stopRemovals == a.hist.stopRemovals
  {}

  lemma PublishKeepsHandlers(a: Agents, f: FutureId)
    requires CanPublish(a, f)
    ensures var b := AfterPublish(a, f);
      b.conns == a.conns && b.hist.stopRemovals == a.hist.stopRemovals
  {}

  lemma CancelKeepsHandlers(a: Agents, f: FutureId)
    requires CanCancel(a, f)
    ensures var b := AfterCancel(a, f);
      b.conns == a.conns && b.hist.stopRemovals == a.hist.stopRemovals
  {}

  lemma SweepPopKeepsHandlers(a: Agents, k: ServerId)
    requires CanSweepPop(a, k)
    ensures var b := AfterSweepPop(a, k);
      b.conns == a.conns && b.hist.stopRemovals == a.hist.stopRemovals
  {}

  lemma HandlerKeptStep(a: Agents, s: Step, c: ConnId)
    requires HandlerKept(a, c) && Unheard(a, c) && Enabled(a, s)
    ensures HandlerKept(Apply(a, s), c) && Unheard(Apply(a, s), c)
  {
    hide Filed, WithConn, CanAct, Acted, CanAdmit, AfterAdmit, CanStopRemove, AfterStopRemove, CanAuthRes, AfterAuthRes,
      AfterValidate, CanClaim, AfterClaim, CanPublish, AfterPublish, CanReply, AfterReply, CanCancel, AfterCancel,
      CanSweepPop, AfterSweepPop, CanSweepSend, AfterSweepSend, HandlerKept, Unheard;
    match s
    case Local(d, act) => HandlerKeptLocal(a, d, act, c);
    case Admit(d, started) => HandlerKeptAdmit(a, d, started, c);
    case StopRemove(d) => HandlerKeptStopRemove(a, d, c);
    case Reply(f) => HandlerKeptReply(a, f, c);
    case SweepSend => HandlerKeptSweepSend(a, c);
    case _ => HandlerKeptOther(a, s, c);
  }

  /** Stopped means that the token came home: the handler's own removal has run, once. */
  lemma StoppedMeansRemoved(a: Agents, c: ConnId)
    requires c in a.conns && HandlerKept(a, c) && a.conns[c].h.wsState == Stopped
    ensures a.hist.stopRemovals[c] == 1 && ShutDownComplete !in a.conns[c].h.queue
  {}

  // ---------------------------------------------------------------------------------------------
  // All of it
  // ---------------------------------------------------------------------------------------------

  ghost predicate Safe(a: Agents) {
    && Filed(a)
    && (forall c :: Balanced(a, c))
    && (forall k :: Authorised(a, k))
    && (forall c :: HandlerKept(a, c) && Unheard(a, c))
  }

  lemma SafeInit(a: Agents)
    requires Init(a)
    ensures Safe(a)
  {
    FiledInit(a);
    forall c ensures Balanced(a, c) {
      BalancedInit(a, c);
    }
    forall k ensures Authorised(a, k) {
      AuthorisedInit(a, k);
    }
  }

  lemma SafeStep(a: Agents, s: Step)
    requires Safe(a) && Enabled(a, s)
    ensures Safe(Apply(a, s))
  {
    hide Filed, Balanced, Authorised, HandlerKept, Unheard, Apply, Enabled;
    FiledStep(a, s);
    forall c ensures Balanced(Apply(a, s), c) {
      BalancedStep(a, s, c);
    }
    forall k ensures Authorised(Apply(a, s), k) {
      AuthorisedStep(a, s, k);
    }
    forall c ensures HandlerKept(Apply(a, s), c) && Unheard(Apply(a, s), c) {
      HandlerKeptStep(a, s, c);
    }
  }
}
