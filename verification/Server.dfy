/** The server object of main.go: its methods, each run to its end without interference, and the
    runs of the pool protocol they amount to. */
module Servers {
  import opened Prelude
  import opened Pools
  import opened PoolRace
  import Configs

  class Collector {
    var clients: Pool

    constructor (clients: Pool)
      ensures this.clients == clients
    {
      this.clients := clients;
    }

    method SetClients(clients: Pool)
      modifies this
      ensures this.clients == clients
    {
      this.clients := clients;
    }
  }

  /** What can be seen of the server from outside. */
  datatype View = View(cfg: seq<string>, server: Pool, collector: Option<Pool>, built: Pool, closed: Pool)

  function Started(v: View, names: seq<string>, creatable: set<string>): View
  {
    var pool := BuildPool(names, creatable, |v.built|);
    if pool == [] then v else v.(server := pool, collector := Some(pool), built := v.built + pool)
  }

  /** A reload whose file was accepted, with these array names. */
  function Reloaded(v: View, names: seq<string>, creatable: set<string>): View
  {
    var pool := BuildPool(names, creatable, |v.built|);
    if Elems(names) == Elems(v.cfg) || pool == [] then v.(cfg := names)
    else
      View(names, pool, if v.collector.Some? then Some(pool) else None, v.built + pool, v.closed + v.server)
  }

  /** Either the array set stays as it is or some client can be built. */
  predicate CanReload(v: View, names: seq<string>, creatable: set<string>)
  {
    Elems(names) == Elems(v.cfg) || BuildPool(names, creatable, |v.built|) != []
  }

  function Shut(v: View): View
  {
    v.(server := [], collector := None, closed := v.closed + v.server)
  }

  class Server {
    const cfg: Configs.SafeConfig
    var clients: Pool
    var collector: Collector?
    var cancellable: bool
    // history: every client built and every Close call, in order
    var built: Pool
    var closed: Pool

    function Look(): View
      reads this, cfg, collector
    {
      View(Configs.NamesOf(cfg.C.arrays), clients, if collector == null then None else Some(collector.clients), built,
           closed)
    }

    constructor (cfg: Configs.SafeConfig)
      ensures this.cfg == cfg && Look() == View(Configs.NamesOf(cfg.C.arrays), [], None, [], [])
    {
      this.cfg := cfg;
      clients, collector, cancellable, built, closed := [], null, false, [], [];
    }

    /** One client per array whose client can be created; none at all is an error. */
    method BuildClients(names: seq<string>, creatable: set<string>) returns (r: Result<Pool, ()>)
      modifies this`built
      ensures var pool := BuildPool(names, creatable, |old(built)|);
        r == (if pool == [] then Err(()) else Ok(pool)) && built == old(built) + pool
    {
      var pool: Pool := [];
      ghost var before := built;
      for i := 0 to |names|
        invariant pool == BuildPool(names[..i], creatable, |before|) && built == before + pool
      {
        assert names[..i + 1][..i] == names[..i];
        if names[i] !in creatable {
          continue;
        }
        var client := Client(|built|, names[i]);
        pool, built := pool + [client], built + [client];
      }
      assert names[..|names|] == names;
      r := if |pool| == 0 then Err(()) else Ok(pool);
    }

    /** The closing loops of a reload and of shutdown. */
    method CloseAll(pool: Pool)
      modifies this`closed
      ensures closed == old(closed) + pool
    {
      for i := 0 to |pool|
        invariant closed == old(closed) + pool[..i]
      {
        closed := closed + [pool[i]];
      }
      assert pool[..|pool|] == pool;
    }

    /** Start-up; the configuration is the one handed in, not the one a reload may have swapped in. */
    method StartCollection(names: seq<string>, creatable: set<string>) returns (ok: bool)
      modifies this
      ensures Look() == Started(old(Look()), names, creatable)
      ensures ok <==> BuildPool(names, creatable, |old(built)|) != []
      ensures ok ==> cancellable && collector != null && fresh(collector)
    {
      var r := BuildClients(names, creatable);
      if r.Err? {
        return false;
      }
      var c := new Collector(r.value);
      clients, collector, cancellable := r.value, c, true;
      return true;
    }

    method ReloadConfig(t: Configs.Attempt, creatable: set<string>) returns (ok: bool)
      modifies this, cfg, collector
      ensures collector == old(collector) && cancellable == old(cancellable)
      ensures !Configs.Accepted(t) ==> !ok && Look() == old(Look())
      ensures Configs.Accepted(t) ==>
        Look() == Reloaded(old(Look()), Configs.NamesOf(t.file.arrays), creatable)
      ensures Configs.Accepted(t) ==>
        (ok <==> CanReload(old(Look()), Configs.NamesOf(t.file.arrays), creatable))
    {
      var arraysChanged, err := cfg.ReloadConfig(t);
      if err {
        return false;
      }
      if !arraysChanged {
        return true;
      }
      var r := BuildClients(Configs.NamesOf(cfg.C.arrays), creatable);
      if r.Err? {
        return false;
      }
      var oldClients := clients;
      clients := r.value;
      if collector != null {
        collector.SetClients(r.value);
      }
      CloseAll(oldClients);
      ok := true;
    }

    method StopCollection()
      modifies this
      ensures Look() == Shut(old(Look())) && !cancellable
    {
      var pool := clients;
      cancellable, clients, collector := false, [], null;
      CloseAll(pool);
    }
  }

  // ---------------------------------------------------------------- the same as runs of the protocol

  function ViewOf(s: State): View
  {
    View(s.cfg, s.server, if s.hasCollector then Some(s.collector) else None, s.built, s.closed)
  }

  function StartRun(creatable: set<string>): seq<Action>
  {
    [StartBuild(creatable), StartStore]
  }

  /** An undisturbed start-up that succeeds. */
  lemma StartIsRun(s: State, creatable: set<string>)
    requires s.start.NotStarted? && BuildPool(s.startCfg, creatable, |s.built|) != []
    ensures Runs(s, StartRun(creatable))
    ensures ViewOf(After(s, StartRun(creatable))) == Started(ViewOf(s), s.startCfg, creatable)
  {
    var s1 := StartedBuild(s, creatable);
    RunsOne(s1, StartStore);
    RunsCons(s, StartBuild(creatable), [StartStore]);
  }

  /** The steps an undisturbed reload takes, depending on what it finds. */
  function ReloadRun(s: State, i: nat, names: seq<string>, creatable: set<string>): seq<Action>
  {
    [LoadConfig(i, names)] +
    ([SwapConfig(i)] + if Elems(names) == Elems(s.cfg) then [] else RebuildRun(s, i, names, creatable))
  }

  function RebuildRun(s: State, i: nat, names: seq<string>, creatable: set<string>): seq<Action>
  {
    [BuildClients(i, creatable)] +
    if BuildPool(names, creatable, |s.built|) == [] then [] else HandOverRun(i, |s.server|)
  }

  /** An undisturbed reload does to the protocol state what the method does to the object. */
  lemma ReloadIsRun(s: State, i: nat, names: seq<string>, creatable: set<string>)
    requires Enabled(s, LoadConfig(i, names))
    ensures var run := ReloadRun(s, i, names, creatable);
      Runs(s, run) && var t := After(s, run);
      ViewOf(t) == Reloaded(ViewOf(s), names, creatable) && t.reloaders == s.reloaders
  {
    var s1 := LoadedConfig(s, i, names);
    var s2 := SwappedConfig(s1, i);
    if Elems(names) == Elems(s.cfg) {
      RunsOne(s1, SwapConfig(i));
      RunsCons(s, LoadConfig(i, names), [SwapConfig(i)]);
      assert s2.reloaders == s.reloaders;
    } else {
      var rest := RebuildRun(s, i, names, creatable);
      RebuildIsRun(s2, i, creatable);
      assert RebuildRun(s2, i, names, creatable) == rest;
      RunsCons(s1, SwapConfig(i), rest);
      RunsCons(s, LoadConfig(i, names), [SwapConfig(i)] + rest);
      assert s2.reloaders[i := Idle] == s.reloaders;
    }
  }

  /** The view after a rebuild for configuration s.cfg. */
  function Rebuilt(s: State, pool: Pool): View
  {
    if pool == [] then ViewOf(s)
    else View(s.cfg, pool, if s.hasCollector then Some(pool) else None, s.built + pool, s.closed + s.server)
  }

  lemma RebuildIsRun(s: State, i: nat, creatable: set<string>)
    requires i < |s.reloaders| && s.reloaders[i].Rebuild?
    ensures var run := RebuildRun(s, i, s.cfg, creatable);
      Runs(s, run) && After(s, run).reloaders == s.reloaders[i := Idle] &&
      ViewOf(After(s, run)) == Rebuilt(s, BuildPool(s.cfg, creatable, |s.built|))
  {
    if BuildPool(s.cfg, creatable, |s.built|) == [] {
      RunsOne(s, BuildClients(i, creatable));
    } else {
      NewPoolIsRun(s, i, creatable);
    }
  }

  lemma NewPoolIsRun(s: State, i: nat, creatable: set<string>)
    requires i < |s.reloaders| && s.reloaders[i].Rebuild? && BuildPool(s.cfg, creatable, |s.built|) != []
    ensures var run := [BuildClients(i, creatable)] + HandOverRun(i, |s.server|);
      Runs(s, run) && After(s, run).reloaders == s.reloaders[i := Idle] &&
      ViewOf(After(s, run)) == Rebuilt(s, BuildPool(s.cfg, creatable, |s.built|))
  {
    var s1 := BuiltClients(s, i, creatable);
    HandOverIsRun(s1, i, BuildPool(s.cfg, creatable, |s.built|));
    RunsCons(s, BuildClients(i, creatable), HandOverRun(i, |s.server|));
    assert s1.reloaders[i := Idle] == s.reloaders[i := Idle];
  }

  function HandOverRun(i: nat, retired: nat): seq<Action>
  {
    [SwapPool(i)] + ([InstallPool(i)] + (Closes(i, retired) + [FinishReload(i)]))
  }

  lemma HandOverIsRun(s: State, i: nat, pool: Pool)
    requires i < |s.reloaders| && s.reloaders[i] == Built(pool)
    ensures var run := HandOverRun(i, |s.server|);
      Runs(s, run) && var t := After(s, run);
      t.reloaders == s.reloaders[i := Idle] &&
      ViewOf(t) == View(s.cfg, pool, if s.hasCollector then Some(pool) else None, s.built, s.closed + s.server)
  {
    var s1 := SwappedPool(s, i);
    var s2 := InstalledPool(s1, i);
    ClosingIsRun(s2, i, s.server);
    var rest := Closes(i, |s.server|) + [FinishReload(i)];
    RunsCons(s1, InstallPool(i), rest);
    RunsCons(s, SwapPool(i), [InstallPool(i)] + rest);
    assert s2.reloaders[i := Idle] == s.reloaders[i := Idle];
  }

  lemma ClosingIsRun(s: State, i: nat, rest: Pool)
    requires i < |s.reloaders| && s.reloaders[i] == Closing(rest)
    ensures var run := Closes(i, |rest|) + [FinishReload(i)];
      Runs(s, run) && After(s, run) == At(s, i, Idle).(closed := s.closed + rest)
  {
    ClosesAll(s, i, rest);
    var t := At(s, i, Closing([])).(closed := s.closed + rest);
    RunsThen(s, Closes(i, |rest|), t, FinishReload(i));
    IdleAgain(s, i, rest);
  }

  lemma IdleAgain(s: State, i: nat, rest: Pool)
    requires i < |s.reloaders|
    ensures At(At(s, i, Closing([])).(closed := s.closed + rest), i, Idle) == At(s, i, Idle).(closed := s.closed + rest)
  {
    assert s.reloaders[i := Closing([])][i := Idle] == s.reloaders[i := Idle];
  }

  function StopCloses(count: nat): seq<Action>
  {
    seq(count, _ => StopClose)
  }

  lemma {:induction false} StopClosesAll(s: State, rest: Pool)
    requires s.stop == Stopping(rest)
    ensures Runs(s, StopCloses(|rest|))
    ensures After(s, StopCloses(|rest|)) == s.(stop := Stopping([]), closed := s.closed + rest)
    decreases |rest|
  {
    if rest == [] {
      assert s.closed + rest == s.closed;
    } else {
      var next := StoppedClose(s);
      StopClosesAll(next, rest[1..]);
      assert next.closed + rest[1..] == s.closed + rest;
      RunsCons(s, StopClose, StopCloses(|rest[1..]|));
      assert StopCloses(|rest|) == [StopClose] + StopCloses(|rest[1..]|);
    }
  }

  function StopRun(s: State): seq<Action>
  {
    [StopSwap] + (StopCloses(|s.server|) + [StopFinish])
  }

  /** An undisturbed shutdown does to the protocol state what the method does to the object. */
  lemma StopIsRun(s: State)
    requires s.stop.Running?
    ensures Runs(s, StopRun(s)) && ViewOf(After(s, StopRun(s))) == Shut(ViewOf(s)) && After(s, StopRun(s)).stop.Stopped?
  {
    var s1 := StoppedSwap(s);
    StopClosesAll(s1, s.server);
    var t := s1.(stop := Stopping([]), closed := s.closed + s.server);
    RunsOne(t, StopFinish);
    RunsConcat(s1, StopCloses(|s.server|), [StopFinish]);
    RunsCons(s, StopSwap, StopCloses(|s.server|) + [StopFinish]);
  }
}
