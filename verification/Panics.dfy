/** Runs of the agents that end badly. */
module Panics {
  import opened Common
  import opened Agents
  import opened Separation

  /** The watcher meets a connection whose handler is gone, and unwraps the failure to tell it. After
      that nothing is ever expired again. For every id there is such a run. */
  lemma WatcherPanics(a: Agents, k: ServerId) returns (run: seq<Agents>)
    requires Init(a)
    ensures IsStepRun(run) && run[0] == a && run[|run| - 1].watcher == Crashed
    ensures forall s: Step :: s.SweepStart? || s.SweepPop? || s.SweepSend? || s.SweepEnd? ==>
      !Enabled(run[|run| - 1], s)
  {
    run := GoneWhileWaiting(a, k);
    run := OneMore(run, SweepStart);
    run := OneMore(run, SweepPop(k));
    run := OneMore(run, SweepSend);
  }

  /** A handler can go without taking its sender out of `unauthenticated_servers`. */
  lemma GoneWhileWaiting(a: Agents, k: ServerId) returns (run: seq<Agents>)
    requires Init(a)
    ensures IsStepRun(run) && run[0] == a
    ensures var m := run[|run| - 1];
      InPhase(m, 0, Closed) && m.unauth == map[k := 0] && m.watcher == Idle
  {
    run := OneMore([a], Local(0, Open(k)));
    run := OneMore(run, Local(0, Check));
    run := OneMore(run, Admit(0, true));
    run := OneMore(run, Local(0, Abandon));
  }
}
