/** Which clients the collection cycles begin with, in every run of the exporter. */
module ExporterLifetime {
  import opened Exporter
  import Pools
  import opened PoolAgreement
  import opened PoolShutdown
  import PoolLedger
  import PoolLifetime

  function PoolPart(run: seq<Action>): seq<Pools.Action>
  {
    if run == [] then []
    else if run[0].PoolStep? then [run[0].a] + PoolPart(run[1..])
    else PoolPart(run[1..])
  }

  /** Collection, publication and registration never disturb the pools: what holds in every run of the
      pools alone holds in every run of the exporter. */
  lemma {:induction false} PoolsRunAlone(s: State, run: seq<Action>)
    requires Runs(s, run)
    ensures Pools.Runs(s.pools, PoolPart(run)) && After(s, run).pools == Pools.After(s.pools, PoolPart(run))
    decreases |run|
  {
    if run != [] {
      PoolsRunAlone(Apply(s, run[0]), run[1..]);
      if run[0].PoolStep? {
        assert PoolPart(run)[1..] == PoolPart(run[1..]);
      }
    }
  }

  lemma DisorderStays(p: Pools.State, a: Pools.Action)
    requires Pools.Enabled(p, a)
    ensures !Orderly(p) ==> !Orderly(Pools.Apply(p, a))
    ensures !p.stop.Running? ==> !Pools.Apply(p, a).stop.Running?
  {
    Pools.FlagStep(p, a);
    if Pools.OfOwn(a) {
      Pools.OwnStep(p, a);
    }
  }

  lemma {:induction false} OrderlyBefore(s: State, run: seq<Action>)
    requires Runs(s, run) && Orderly(After(s, run).pools)
    ensures Orderly(s.pools)
    decreases |run|
  {
    if run != [] {
      OrderlyBefore(Apply(s, run[0]), run[1..]);
      if run[0].PoolStep? {
        DisorderStays(s.pools, run[0].a);
      }
    }
  }

  predicate ShutdownCloses(a: Action)
  {
    a.PoolStep? && a.a.StopClose?
  }

  /** Some cycle of the run begins after shutdown has closed a client and while no reload stands between
      its swap and its SetClients call; begun tells whether shutdown had closed one already. */
  ghost predicate LateCycle(s: State, begun: bool, run: seq<Action>)
    requires Runs(s, run)
    decreases |run|
  {
    run != [] &&
    ((run[0].BeginCycle? && begun && WindowClosed(s.pools)) ||
     LateCycle(Apply(s, run[0]), begun || ShutdownCloses(run[0]), run[1..]))
  }

  function ShutBy(shut: Pools.Pool, s: State, a: Action): Pools.Pool
    requires a.PoolStep? ==> Pools.Enabled(s.pools, a.a)
  {
    if a.PoolStep? then PoolLifetime.ShutBy(shut, s.pools, a.a) else shut
  }

  lemma ShutStep(s: State, shut: Pools.Pool, a: Action)
    requires PoolLifetime.Sound(s.pools, shut) && Enabled(s, a)
    ensures PoolLifetime.Sound(Apply(s, a).pools, ShutBy(shut, s, a))
    ensures ShutBy(shut, s, a) != [] <==> shut != [] || ShutdownCloses(a)
  {
    if a.PoolStep? {
      PoolLifetime.SoundStep(s.pools, shut, a.a);
    } else {
      assert Apply(s, a).pools == s.pools;
    }
  }

  lemma {:induction false} StaleRun(s: State, shut: Pools.Pool, run: seq<Action>)
    requires PoolLifetime.Sound(s.pools, shut) && Runs(s, run) && Orderly(After(s, run).pools)
    ensures After(s, run).stale <==> s.stale || LateCycle(s, shut != [], run)
    decreases |run|
  {
    if run != [] {
      OrderlyBefore(s, run);
      PoolLifetime.UsesClosedInState(s.pools, shut);
      ShutStep(s, shut, run[0]);
      assert Apply(s, run[0]).stale == (s.stale || (run[0].BeginCycle? && PoolLifetime.UsesClosed(s.pools)));
      StaleRun(Apply(s, run[0]), ShutBy(shut, s, run[0]), run[1..]);
    }
  }

  /** In every run without misplaced or overlapping pool swaps, shutdown included: some cycle has begun with a
      closed client if and only if some cycle began after shutdown had closed a client and while no reload
      still had to call SetClients. */
  lemma CycleUsesClosedIff(s: State, run: seq<Action>)
    requires Init(s) && Runs(s, run) && Orderly(After(s, run).pools)
    ensures After(s, run).stale <==> LateCycle(s, false, run)
  {
    PoolLifetime.SoundInit(s.pools);
    StaleRun(s, [], run);
  }

  // ---------------------------------------------------------------- whatever the pools do

  /** After this much of the run the collector's list has been taken out of the server, and whoever took it
      has closed a client since. */
  ghost predicate UsesTaken(s: State, first: seq<Action>)
  {
    && Runs(s, first) && Pools.Runs(s.pools, PoolPart(first))
    && var list := After(s, first).pools.collector;
       list != [] && PoolLedger.TakenAndClosed(list, s.pools, PoolPart(first))
  }

  ghost predicate UsesClosed(s: State, first: seq<Action>)
  {
    Runs(s, first) && PoolLifetime.UsesClosed(After(s, first).pools)
  }

  /** Step k of the run begins a cycle after a prefix with this property. */
  ghost predicate BeginsAfter(p: (State, seq<Action>) -> bool, s: State, run: seq<Action>, k: int)
  {
    0 <= k < |run| && run[k].BeginCycle? && p(s, run[..k])
  }

  lemma UsesClosedLater(s: State, run: seq<Action>, k: nat)
    requires run != [] && Runs(s, run) && k < |run[1..]|
    ensures BeginsAfter(UsesClosed, s, run, k + 1) <==> BeginsAfter(UsesClosed, Apply(s, run[0]), run[1..], k)
  {
    assert run[..k + 1][1..] == run[1..][..k];
  }

  lemma {:induction false} StaleIffBegins(s: State, run: seq<Action>)
    requires Runs(s, run)
    ensures After(s, run).stale <==> s.stale || exists k :: BeginsAfter(UsesClosed, s, run, k)
    decreases |run|
  {
    if run != [] {
      var next, rest := Apply(s, run[0]), run[1..];
      StaleIffBegins(next, rest);
      assert run[..0] == [] && After(s, []) == s;
      assert BeginsAfter(UsesClosed, s, run, 0) <==> run[0].BeginCycle? && PoolLifetime.UsesClosed(s.pools);
      if k :| BeginsAfter(UsesClosed, next, rest, k) {
        UsesClosedLater(s, run, k);
      }
      if k :| BeginsAfter(UsesClosed, s, run, k) && k > 0 {
        UsesClosedLater(s, run, k - 1);
      }
    }
  }

  /** In every run: some cycle has begun with a closed client if and only if some cycle began with a list that
      a reload or shutdown had taken out of the server and begun to close. */
  lemma CycleUsesClosedIffTaken(s: State, run: seq<Action>)
    requires Init(s) && Runs(s, run)
    ensures After(s, run).stale <==> exists k :: BeginsAfter(UsesTaken, s, run, k)
  {
    StaleIffBegins(s, run);
    forall k
      ensures BeginsAfter(UsesTaken, s, run, k) <==> BeginsAfter(UsesClosed, s, run, k)
    {
      if 0 <= k < |run| && Runs(s, run[..k]) {
        PoolsRunAlone(s, run[..k]);
        PoolLedger.UsesClosedIffTaken(s.pools, PoolPart(run[..k]));
      }
    }
  }

  // ---------------------------------------------------------------- before and after shutdown

  lemma {:induction false} RunningNeverLate(s: State, run: seq<Action>)
    requires Runs(s, run) && After(s, run).pools.stop.Running?
    ensures s.pools.stop.Running? && !LateCycle(s, false, run)
    decreases |run|
  {
    if run != [] {
      RunningNeverLate(Apply(s, run[0]), run[1..]);
      if run[0].PoolStep? {
        DisorderStays(s.pools, run[0].a);
      }
    }
  }

  /** So as long as shutdown has not begun, no cycle has ever begun with a closed client. */
  lemma NoCycleUsesClosedClients(s: State, run: seq<Action>)
    requires Init(s) && Runs(s, run)
    ensures var t := After(s, run); Orderly(t.pools) && t.pools.stop.Running? ==> !t.stale
  {
    if Orderly(After(s, run).pools) && After(s, run).pools.stop.Running? {
      CycleUsesClosedIff(s, run);
      RunningNeverLate(s, run);
    }
  }

  /** And once everything is closed, a loop that has not ended yet can begin another cycle, and all the
      clients of that cycle are closed. */
  lemma ShutdownCanLoseRace(s: State, run: seq<Action>)
    requires Init(s) && Runs(s, run)
    requires var t := After(s, run); Finished(t.pools) && !t.pools.stray && t.loop.Waiting?
    ensures var t := After(s, run);
      && Enabled(t, BeginCycle) && Apply(t, BeginCycle).stale
      && forall c :: c in Apply(t, BeginCycle).loop.pool ==> c in t.pools.closed
  {
    PoolsRunAlone(s, run);
    CollectorLeftWithClosed(s.pools, PoolPart(run));
    var t := After(s, run);
    assert t.pools.collector[0] in t.pools.collector;
    assert Apply(t, BeginCycle) == Begun(t);
  }
}
