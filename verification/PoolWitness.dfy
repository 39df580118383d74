/** Shortest runs that show each way the pools can go wrong: overlapping reloads, a reload during
    start-up, and a rebuild without any usable client. */
module PoolWitness {
  import opened Prelude
  import opened Pools
  import opened PoolAgreement
  import opened PoolShutdown
  import opened PoolNames
  import opened PoolRace

  /** The process before start-up, configured with one array and with n goroutines that may reload. */
  function Fresh(name: string, n: nat): State
  {
    State([name], [name], [], false, [], NotStarted, seq(n, _ => Idle), Running, [], [], [], {}, true, false, false,
          false)
  }

  lemma OneArray(name: string, next: nat)
    ensures BuildPool([name], {name}, next) == [Client(next, name)]
  {
    assert [name][..0] == [] && BuildPool([], {name}, next) == [];
  }

  /** One array, started. */
  function Up(name: string, n: nat): State
  {
    StartedStore(Fresh(name, n).(start := Created([Client(0, name)]), collector := [Client(0, name)],
                                 installed := {[Client(0, name)]}, built := [Client(0, name)]))
  }

  lemma UpRuns(name: string, n: nat) returns (run: seq<Action>)
    ensures Init(Fresh(name, n)) && Runs(Fresh(name, n), run) && After(Fresh(name, n), run) == Up(name, n)
  {
    OneArray(name, 0);
    var s := Fresh(name, n);
    run := [StartBuild({name}), StartStore];
    RunsOne(StartedBuild(s, {name}), StartStore);
    RunsCons(s, StartBuild({name}), [StartStore]);
  }

  /** Goroutine i loads a file with this one array and gets as far as holding its new client. */
  lemma BuiltRuns(s0: State, before: seq<Action>, s: State, i: nat, name: string) returns (run: seq<Action>)
    requires Runs(s0, before) && After(s0, before) == s && i < |s.reloaders| && s.reloaders[i].Idle? && name !in s.cfg
    ensures Runs(s0, run)
    ensures var t := After(s0, run);
      t == At(s, i, Built([Client(|s.built|, name)])).(cfg := [name], built := s.built + [Client(|s.built|, name)],
                                                        raced := s.raced || BusyBeside(s, i))
  {
    OneArray(name, |s.built|);
    var s1 := LoadedConfig(s, i, [name]);
    var s2 := SwappedConfig(s1, i);
    assert name in Elems([name]) && name !in Elems(s.cfg);
    assert s2.reloaders[i].Rebuild?;
    RunsThen(s0, before, s, LoadConfig(i, [name]));
    RunsThen(s0, before + [LoadConfig(i, [name])], s1, SwapConfig(i));
    run := before + [LoadConfig(i, [name])] + [SwapConfig(i)];
    RunsThen(s0, run, s2, BuildClients(i, {name}));
    run := run + [BuildClients(i, {name})];
    assert s2.reloaders[i := Built([Client(|s.built|, name)])] == s.reloaders[i := Built([Client(|s.built|, name)])];
  }

  /** Two reloads overlap after start-up, and the collector ends with closed clients the server no longer holds. */
  lemma OverlapHappens() returns (s: State, run: seq<Action>)
    ensures Init(s) && Runs(s, run)
    ensures var t := After(s, run); !t.stray && Open(t) && CollectorIsDead(t)
  {
    s := Fresh("a", 2);
    run := UpRuns("a", 2);
    var s1 := Up("a", 2);
    run := BuiltRuns(s, run, s1, 0, "b");
    var s2 := After(s, run);
    run := BuiltRuns(s, run, s2, 1, "c");
    var s3 := After(s, run);
    RunsThen(s, run, s3, SwapPool(0));
    run := run + [SwapPool(0)];
    OverlapReached(s3);
    OverlapCanLosePool(s, run, 0, 1);
    var more := LosingSchedule(0, 1, |After(s, run).server|);
    LosingStaysOpen(After(s, run), more);
    RunsConcat(s, run, more);
    run := run + more;
  }

  lemma OverlapReached(s: State)
    requires |s.reloaders| == 2 && s.reloaders[0].Built? && s.reloaders[1].Built?
    requires !s.stray && !s.overlapped && Open(s)
    ensures var t := SwappedPool(s, 0); Orderly(t) && Open(t) && WindowAt(t, 0) && t.reloaders[1].Built?
  {
  }

  predicate OnlyReloads(run: seq<Action>)
  {
    forall k :: 0 <= k < |run| ==> OfReload(run[k])
  }

  lemma {:induction false} ReloadsKeepOpen(s: State, run: seq<Action>)
    requires Open(s) && !s.stray && Runs(s, run) && OnlyReloads(run)
    ensures Open(After(s, run)) && !After(s, run).stray
    decreases |run|
  {
    if run != [] {
      assert OfReload(run[0]);
      FlagStep(s, run[0]);
      assert Open(Apply(s, run[0]));
      ReloadsKeepOpen(Apply(s, run[0]), run[1..]);
    }
  }

  lemma LosingStaysOpen(s: State, run: seq<Action>)
    requires Open(s) && !s.stray && Runs(s, run) && exists i, j, n :: run == LosingSchedule(i, j, n)
    ensures Open(After(s, run)) && !After(s, run).stray
  {
    ReloadsKeepOpen(s, run);
  }

  /** The end of a reload that had no collector to hand its pool to and nothing to close. */
  lemma EarlySwapRuns(s0: State, before: seq<Action>, s: State) returns (run: seq<Action>, t: State)
    requires Runs(s0, before) && After(s0, before) == s && |s.reloaders| == 1 && s.reloaders[0].Built?
    requires s.server == [] && !s.hasCollector && s.start.NotStarted?
    ensures Runs(s0, run) && After(s0, run) == t
    ensures t == s.(reloaders := [Idle], server := s.reloaders[0].pool, rebuilt := true, stray := true,
                    overlapped := s.overlapped || WindowOpenBeside(s, 0))
  {
    var s1 := SwappedPool(s, 0);
    var s2 := InstalledPool(s1, 0);
    RunsThen(s0, before, s, SwapPool(0));
    RunsThen(s0, before + [SwapPool(0)], s1, InstallPool(0));
    run := before + [SwapPool(0)] + [InstallPool(0)];
    RunsThen(s0, run, s2, FinishReload(0));
    run := run + [FinishReload(0)];
    t := At(s2, 0, Idle);
    assert t.reloaders == [Idle];
  }

  /** Start-up and shutdown with one array of the configuration start-up has captured. */
  lemma UpAndDownRuns(s0: State, before: seq<Action>, s: State, name: string) returns (run: seq<Action>, t: State)
    requires Runs(s0, before) && After(s0,
                                       before) == s && s.start.NotStarted? && s.stop.Running? && s.startCfg == [name]
    ensures Runs(s0, run) && After(s0, run) == t
    ensures t.start.Stored? && t.stop.Stopped? && t.reloaders == s.reloaders
    ensures t.stray == s.stray && t.overlapped == s.overlapped
    ensures t.closed == s.closed + [Client(|s.built|, name)] && t.collector == [Client(|s.built|, name)]
  {
    OneArray(name, |s.built|);
    var s1 := StartedBuild(s, {name});
    var s2 := StartedStore(s1);
    var s3 := StoppedSwap(s2);
    var s4 := StoppedClose(s3);
    RunsThen(s0, before, s, StartBuild({name}));
    run := before + [StartBuild({name})];
    RunsThen(s0, run, s1, StartStore);
    run := run + [StartStore];
    RunsThen(s0, run, s2, StopSwap);
    run := run + [StopSwap];
    RunsThen(s0, run, s3, StopClose);
    run := run + [StopClose];
    RunsThen(s0, run, s4, StopFinish);
    run := run + [StopFinish];
    t := s4.(stop := Stopped);
  }

  /** A reload finishes before start-up stores its own pool: the reload's client is never closed. */
  lemma EarlyReloadLeaks() returns (s: State, run: seq<Action>)
    ensures Init(s) && Runs(s, run) && Finished(After(s, run)) && !EachClosedOnce(After(s, run))
  {
    s := Fresh("a", 1);
    assert Runs(s, []) && After(s, []) == s;
    run := BuiltRuns(s, [], s, 0, "b");
    var t := After(s, run);
    run, t := EarlySwapRuns(s, run, t);
    run, t := UpAndDownRuns(s, run, t, "a");
    assert AllIdle(t);
    ShutdownClosesEverything(s, run);
  }

  /** A reload finds no usable client; loading the same file again changes nothing, and the server keeps
      serving an array that the configuration no longer has. */
  lemma FailedRebuildHappens() returns (s: State, run: seq<Action>)
    ensures Init(s) && Runs(s, run)
    ensures var t := After(s, run);
      Open(t) && AllIdle(t) && t.cfg == ["b"] && Names(t.server) == {"a"} && t.server == t.collector
  {
    s := Fresh("a", 1);
    run := UpRuns("a", 1);
    var s1 := Up("a", 1);
    var s2 := LoadedConfig(s1, 0, ["b"]);
    var s3 := SwappedConfig(s2, 0);
    RunsThen(s, run, s1, LoadConfig(0, ["b"]));
    run := run + [LoadConfig(0, ["b"])];
    RunsThen(s, run, s2, SwapConfig(0));
    run := run + [SwapConfig(0)];
    assert "b" in Elems(["b"]) && "b" !in Elems(["a"]);
    StuckAfter(s3);
    RunsConcat(s, run, [BuildClients(0, {}), LoadConfig(0, ["b"]), SwapConfig(0)]);
    run := run + [BuildClients(0, {}), LoadConfig(0, ["b"]), SwapConfig(0)];
  }

  lemma StuckAfter(s: State)
    requires |s.reloaders| == 1 && s.reloaders[0].Rebuild? && s.cfg == ["b"] && Open(s)
    requires s.server == s.collector == [Client(0, "a")]
    ensures var run := [BuildClients(0, {}), LoadConfig(0, ["b"]), SwapConfig(0)];
      Runs(s, run) && var t := After(s, run);
      Open(t) && AllIdle(t) && t.cfg == ["b"] && Names(t.server) == {"a"} && t.server == t.collector
  {
    FailedRebuildSticks(s, 0, {}, ["b"]);
    var run := [BuildClients(0, {}), LoadConfig(0, ["b"]), SwapConfig(0)];
    BuildPoolNames(["b"], {}, |s.built|);
    RunsOne(LoadedConfig(BuiltClients(s, 0, {}), 0, ["b"]), SwapConfig(0));
    RunsCons(BuiltClients(s, 0, {}), LoadConfig(0, ["b"]), [SwapConfig(0)]);
    RunsCons(s, BuildClients(0, {}), [LoadConfig(0, ["b"]), SwapConfig(0)]);
    assert s.server[0] in s.server;
  }
}
