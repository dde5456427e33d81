/**
  Whose sender an authentication takes. The id in an agent's answer is never compared with the id its
  websocket was opened with, and a newer admission under an id throws out the older one's sender.
*/
module Claims {
  import opened Common
  import opened Agents
  import opened AgentSafety
  import opened Separation
  import H = Handlers
  import Broker
  import Runs

  /** Nothing has befallen the sender of `c` since it was admitted. */
  ghost predicate StillWaiting(a: Agents, c: ConnId) {
    a.hist.overwritten[c] == 0 && a.hist.expired[c] == 0 && a.hist.claimed[c] == 0
  }

  /** An authentication takes its own websocket's sender if and only if it names the id this websocket
      was opened with, and the sender has been neither thrown out by a newer admission, nor expired,
      nor claimed by another authentication. */
  lemma ClaimsItsOwnIff(a: Agents, f: FutureId)
    requires Safe(a) && CanClaim(a, f)
    ensures var y := a.futures[f];
      Carries(AfterClaim(a, f), f, y.owner) <==>
        y.publicId == a.conns[y.owner].openedAt && StillWaiting(a, y.owner)
  {
    var o := a.futures[f].owner;
    assert WasAdmitted(a, o);
    assert Balanced(a, o);
    ClaimShape(a, f);
    hide Safe, Balanced, AfterClaim, InFlight, InServers;
  }

  /** ... and so in every state of every run of the broker. */
  lemma OwnSenderInRun(run: seq<Broker.State>, i: nat, f: FutureId)
    requires Runs.IsRun(run) && i < |run| && CanClaim(run[i].a, f)
    ensures var y, b := run[i].a.futures[f], AfterClaim(run[i].a, f);
      && y.owner in run[i].a.conns
      && (Carries(b, f, y.owner) <==>
            y.publicId == run[i].a.conns[y.owner].openedAt && StillWaiting(run[i].a, y.owner))
  {
    Runs.InvHolds(run, i);
    hide Runs.IsRun;
    assert Filed(run[i].a);
    ClaimsItsOwnIff(run[i].a, f);
    hide Safe;
  }

  /** It can be another's: for every registered id there is a run in which one websocket opens after
      another at that address and never says anything; the other one authenticates; and the silent one
      is published, while the other is told that it is authenticated. */
  lemma SilentAgentPublished(a: Agents, k: ServerId) returns (run: seq<Agents>)
    requires Init(a) && k in a.db
    ensures IsStepRun(run) && run[0] == a
    ensures var m := run[|run| - 1];
      && m.servers == map[k := 1] && m.conns.Keys == {0, 1}
      && (forall f :: f in m.futures ==> m.futures[f].owner == 0)
      && m.conns[0].h.queue == [H.SendMessage(H.AuthReq(k)), H.SendMessage(H.AuthOk), H.NowAuthenticated]
      && m.conns[1].h.queue == [H.SendMessage(H.AuthReq(k))]
  {
    run := OverwrittenThenClaimed(a, k);
    run := OneMore(run, Publish(0));
    run := OneMore(run, Reply(0));
    run := OneMore(run, Reply(0));
  }

  lemma OverwrittenThenClaimed(a: Agents, k: ServerId) returns (run: seq<Agents>)
    requires Init(a) && k in a.db
    ensures IsStepRun(run) && run[0] == a
    ensures var m := run[|run| - 1];
      && m.servers == map[] && m.conns.Keys == {0, 1} && m.futures.Keys == {0}
      && m.futures[0].owner == 0 && m.futures[0].publicId == k && Carries(m, 0, 1)
      && InPhase(m, 0, Live) && m.conns[0].h.queue == [H.SendMessage(H.AuthReq(k))]
      && m.conns[1].h.queue == [H.SendMessage(H.AuthReq(k))]
  {
    run := BothChecked(a, k);
    var passcode := a.db[k];
    run := OneMore(run, Admit(0, true));
    run := OneMore(run, AuthRes(0, 0, k, passcode));
    run := OneMore(run, Validate(0, false));
    run := OneMore(run, Admit(1, true));
    run := OneMore(run, Claim(0));
  }
}
