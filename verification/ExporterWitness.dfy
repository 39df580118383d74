/** A shortest run in which a cycle begins after shutdown has finished. */
module ExporterWitness {
  import opened Snapshots
  import opened Exporter
  import Pools
  import opened PoolAgreement
  import PoolWitness

  /** The exporter before start-up, with one configured array and neither readers nor reloads. */
  function Fresh(name: string): State
  {
    State(PoolWitness.Fresh(name, 0), Waiting, [Version([], [], Snapshot(map[], map[], []))], [], false, [], {}, [],
          false, false)
  }

  function Lifted(run: seq<Pools.Action>): seq<Action>
  {
    if run == [] then [] else [PoolStep(run[0])] + Lifted(run[1..])
  }

  /** The pools can always move while everything else stands still. */
  lemma {:induction false} LiftedRuns(s: State, run: seq<Pools.Action>)
    requires Pools.Runs(s.pools, run)
    ensures Runs(s, Lifted(run)) && After(s, Lifted(run)) == s.(pools := Pools.After(s.pools, run))
    decreases |run|
  {
    if run != [] {
      LiftedRuns(Apply(s, PoolStep(run[0])), run[1..]);
      assert Lifted(run)[1..] == Lifted(run[1..]);
    }
  }

  lemma {:induction false} RunsThen(s: State, run: seq<Action>, a: Action)
    requires Runs(s, run) && Enabled(After(s, run), a)
    ensures Runs(s, run + [a]) && After(s, run + [a]) == Apply(After(s, run), a)
    decreases |run|
  {
    if run == [] {
      assert run + [a] == [a] && [a][1..] == [] && Runs(Apply(s, a), []);
    } else {
      assert (run + [a])[1..] == run[1..] + [a];
      RunsThen(Apply(s, run[0]), run[1..], a);
    }
  }

  /** Start-up, shutdown, and only then a tick: the cycle begins with the closed client. */
  lemma LateCycleHappens() returns (s: State, run: seq<Action>)
    ensures Init(s) && Runs(s, run)
    ensures var t := After(s, run); t.stale && t.loop.Collecting? && t.pools.stop.Stopped? && Orderly(t.pools)
  {
    s := Fresh("a");
    var p := s.pools;
    assert Pools.Runs(p, []) && Pools.After(p, []) == p;
    var pools, q := PoolWitness.UpAndDownRuns(p, [], p, "a");
    LiftedRuns(s, pools);
    run := Lifted(pools);
    var t := After(s, run);
    assert t.pools == q && q.collector[0] in q.collector && q.collector[0] in q.closed;
    RunsThen(s, run, BeginCycle);
    run := run + [BeginCycle];
  }
}
