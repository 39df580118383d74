/** Which arrays the running clients belong to: exactly, when reloads run one after another; and one array
    each, always. */
module PoolNames {
  import opened Prelude
  import opened Pools
  import opened PoolAgreement
  import opened PoolShutdown

  ghost predicate BusyAt(s: State, i: nat)
  {
    i < |s.reloaders| && !s.reloaders[i].Idle?
  }

  /** At most one goroutine is inside ReloadConfig. */
  ghost predicate Serial(s: State)
  {
    forall i: nat, j: nat :: BusyAt(s, i) && BusyAt(s, j) ==> i == j
  }

  /** No reload has swapped the configuration without having swapped the pool yet. */
  predicate Settled(s: State)
  {
    forall i :: 0 <= i < |s.reloaders| ==> !s.reloaders[i].Rebuild? && !s.reloaders[i].Built?
  }

  /** Which arrays a client could be created for when start-up built its pool, and when the last reload did. */
  datatype Builds = Builds(start: set<string>, reload: Option<set<string>>)
  {
    function Last(): set<string>
    {
      if reload.Some? then reload.value else start
    }
  }

  function Next(h: Builds, a: Action): Builds
  {
    if a.BuildClients? then h.(reload := Some(a.creatable)) else if a.StartBuild? then h.(start := a.creatable) else h
  }

  function BuildsAfter(h: Builds, run: seq<Action>): Builds
    decreases |run|
  {
    if run == [] then h else BuildsAfter(Next(h, run[0]), run[1..])
  }

  /** What the goroutine in progress knows about the configuration. */
  predicate InStep(s: State, h: Builds, pc: ReloadPc)
  {
    match pc
    case Loaded(_, seen) => seen == Elems(s.cfg)
    case Built(pool) => h.reload.Some? && Names(pool) == Elems(s.cfg) * h.reload.value
    case _ => true
  }

  /** The pool in use was built for the configuration in use. */
  predicate Current(s: State, h: Builds)
  {
    && (!s.start.Stored? ==> h.reload.None? && Elems(s.cfg) == Elems(s.startCfg))
    && (Open(s) ==> Names(s.server) == Elems(s.cfg) * h.Last())
  }

  /** The last reload that wanted a new pool found no client for any array of the configuration in use. */
  predicate Unbuilt(s: State, h: Builds)
  {
    h.reload.Some? && Elems(s.cfg) !! h.reload.value
  }

  ghost predicate Tracked(s: State, h: Builds)
  {
    && (s.start.Created? ==> Names(s.start.pool) == Elems(s.startCfg) * h.start)
    && (!s.raced ==> Serial(s) && !s.overlapped && forall i :: 0 <= i < |s.reloaders| ==> InStep(s, h, s.reloaders[i]))
    && (!s.raced && !s.stray && s.rebuilt && Settled(s) ==> Current(s, h))
    && (!s.raced && !s.rebuilt && Settled(s) ==> Unbuilt(s, h))
  }

  lemma TrackedLoad(s: State, h: Builds, i: nat, names: seq<string>)
    requires Tracked(s, h) && Enabled(s, LoadConfig(i, names))
    ensures Tracked(LoadedConfig(s, i, names), h)
  {
    var t := LoadedConfig(s, i, names);
    if !t.raced {
      assert forall j: nat :: BusyAt(t, j) ==> j == i;
      assert Settled(s);
    }
  }

  /** A serial reload past its first step: everyone else is idle. */
  lemma OthersIdle(s: State, h: Builds, i: nat)
    requires Tracked(s, h) && !s.raced && BusyAt(s, i)
    ensures forall j :: 0 <= j < |s.reloaders| && j != i ==> s.reloaders[j].Idle?
  {
    forall j: nat | j < |s.reloaders| && j != i
      ensures s.reloaders[j].Idle?
    {
      assert !BusyAt(s, j);
    }
  }

  lemma TrackedSwapConfig(s: State, h: Builds, i: nat)
    requires Tracked(s, h) && Enabled(s, SwapConfig(i))
    ensures Tracked(SwappedConfig(s, i), h)
  {
    var t := SwappedConfig(s, i);
    if !s.raced {
      OthersIdle(s, h, i);
      assert InStep(s, h, s.reloaders[i]);
      assert Settled(s);
      if t.reloaders[i].Rebuild? {
        assert !Settled(t);
      } else {
        assert Elems(t.cfg) == Elems(s.cfg) && (Settled(t) ==> Unbuilt(s, h) == Unbuilt(t, h));
      }
    }
  }

  lemma TrackedBuild(s: State, h: Builds, i: nat, creatable: set<string>)
    requires Tracked(s, h) && Enabled(s, BuildClients(i, creatable))
    ensures Tracked(BuiltClients(s, i, creatable), Next(h, BuildClients(i, creatable)))
  {
    var t := BuiltClients(s, i, creatable);
    BuildPoolNames(s.cfg, creatable, |s.built|);
    if !s.raced {
      OthersIdle(s, h, i);
      if t.reloaders[i].Built? {
        assert !Settled(t);
      } else {
        assert !t.rebuilt && Unbuilt(t, Next(h, BuildClients(i, creatable)));
      }
    }
  }

  lemma TrackedSwapPool(s: State, h: Builds, i: nat)
    requires Tracked(s, h) && Enabled(s, SwapPool(i))
    ensures Tracked(SwappedPool(s, i), h)
  {
    if !s.raced {
      OthersIdle(s, h, i);
      assert InStep(s, h, s.reloaders[i]);
    }
  }

  /** The last three kinds of step leave configuration and pool alone. */
  lemma TrackedTail(s: State, h: Builds, t: State, i: nat, pc: ReloadPc)
    requires Tracked(s, h) && i < |s.reloaders| && t.reloaders == s.reloaders[i := pc]
    requires s.reloaders[i].Swapped? || s.reloaders[i].Closing?
    requires pc.Closing? || pc.Idle?
    requires t.cfg == s.cfg && t.startCfg == s.startCfg && t.server == s.server
    requires t.start == s.start && t.stop == s.stop
    requires t.rebuilt == s.rebuilt && t.stray == s.stray && t.raced == s.raced && t.overlapped == s.overlapped
    ensures Tracked(t, h)
  {
    if !s.raced {
      OthersIdle(s, h, i);
      assert forall j: nat :: BusyAt(t, j) ==> j == i;
      assert Settled(s);
    }
  }

  lemma TrackedStart(s: State, h: Builds, a: Action)
    requires Tracked(s, h) && Enabled(s, a) && (a.StartBuild? || a.StartStore?)
    ensures Tracked(Apply(s, a), Next(h, a))
  {
    var t := Apply(s, a);
    if a.StartBuild? {
      BuildPoolNames(s.startCfg, a.creatable, |s.built|);
    }
    assert forall j: nat :: BusyAt(t, j) <==> BusyAt(s, j);
    assert Settled(t) == Settled(s);
  }

  lemma TrackedStop(s: State, h: Builds, t: State)
    requires Tracked(s, h) && t.reloaders == s.reloaders && t.start == s.start && !t.stop.Running?
    requires t.cfg == s.cfg && t.startCfg == s.startCfg
    requires t.rebuilt == s.rebuilt && t.stray == s.stray && t.raced == s.raced && t.overlapped == s.overlapped
    ensures Tracked(t, h)
  {
    assert forall j: nat :: BusyAt(t, j) <==> BusyAt(s, j);
    assert Settled(t) == Settled(s);
  }

  lemma TrackedEnd(s: State, h: Builds, a: Action)
    requires Tracked(s, h) && Enabled(s, a) && (a.InstallPool? || a.CloseOld? || a.FinishReload?)
    ensures Tracked(Apply(s, a), h)
  {
    match a {
      case InstallPool(i) => TrackedTail(s, h, InstalledPool(s, i), i, Closing(s.reloaders[i].retired));
      case CloseOld(i) => TrackedTail(s, h, ClosedOld(s, i), i, Closing(s.reloaders[i].rest[1..]));
      case FinishReload(i) => TrackedTail(s, h, At(s, i, Idle), i, Idle);
    }
  }

  lemma TrackedReload(s: State, h: Builds, a: Action)
    requires Tracked(s, h) && Enabled(s, a) && OfReload(a)
    ensures Tracked(Apply(s, a), Next(h, a))
  {
    match a {
      case LoadConfig(i, names) => TrackedLoad(s, h, i, names);
      case SwapConfig(i) => TrackedSwapConfig(s, h, i);
      case BuildClients(i, creatable) => TrackedBuild(s, h, i, creatable);
      case SwapPool(i) => TrackedSwapPool(s, h, i);
      case _ => TrackedEnd(s, h, a);
    }
  }

  lemma TrackedStep(s: State, h: Builds, a: Action)
    requires Tracked(s, h) && Enabled(s, a)
    ensures Tracked(Apply(s, a), Next(h, a))
  {
    if OfReload(a) {
      TrackedReload(s, h, a);
    } else if a.StartBuild? || a.StartStore? {
      TrackedStart(s, h, a);
    } else {
      TrackedStop(s, h, Apply(s, a));
    }
  }

  lemma {:induction false} TrackedRun(s: State, h: Builds, run: seq<Action>)
    requires Tracked(s, h) && Runs(s, run)
    ensures Tracked(After(s, run), BuildsAfter(h, run))
    decreases |run|
  {
    if run != [] {
      TrackedStep(s, h, run[0]);
      TrackedRun(Apply(s, run[0]), Next(h, run[0]), run[1..]);
    }
  }

  /** Serial reloads between start-up and shutdown: whenever no reload is going on, the collector uses the
      server's clients; and these serve exactly the arrays of the current configuration for which a client could
      be created at the last build, if and only if the last array-set change could be built. */
  lemma SerialReloadsTrackConfig(s: State, run: seq<Action>)
    requires Init(s) && Runs(s, run)
    requires var t := After(s, run); !t.raced && !t.stray && Open(t) && AllIdle(t)
    ensures var t := After(s, run);
      && t.server == t.collector
      && (Names(t.collector) == Elems(t.cfg) * BuildsAfter(Builds({}, None), run).Last() <==> !EndsUnbuilt(s, run))
  {
    var t := After(s, run);
    TrackedRun(s, Builds({}, None), run);
    AccountedRun(s, run);
    FlagsDescribeRun(s, run);
    PoolsAgree(s, run);
    assert WindowClosed(t) && Settled(t) && Serving(t);
    assert t.server[0].name in Names(t.server);
  }

  /** A rebuild that failed is not retried: loading the same array names again changes nothing
      but the history, because the configuration was swapped before the clients were built. */
  lemma FailedRebuildSticks(s: State, i: nat, creatable: set<string>, names: seq<string>)
    requires Enabled(s, BuildClients(i, creatable)) && Elems(s.cfg) !! creatable
    requires names != [] && NoDup(names) && Elems(names) == Elems(s.cfg)
    ensures var run := [BuildClients(i, creatable), LoadConfig(i, names), SwapConfig(i)];
      Runs(s, run) && var t := After(s, run);
      && !t.rebuilt && i < |t.reloaders| && t.reloaders[i].Idle?
      && t.server == s.server && t.collector == s.collector && t.built == s.built
  {
    BuildPoolNames(s.cfg, creatable, |s.built|);
    var s1 := BuiltClients(s, i, creatable);
    var s2 := LoadedConfig(s1, i, names);
    RunsOne(s2, SwapConfig(i));
    RunsCons(s1, LoadConfig(i, names), [SwapConfig(i)]);
    RunsCons(s, BuildClients(i, creatable), [LoadConfig(i, names), SwapConfig(i)]);
  }

  // ---------------------------------------------------------------- one name each

  /** No two clients of the list belong to arrays of the same name. */
  predicate DistinctNames(pool: Pool)
  {
    forall i, j :: 0 <= i < j < |pool| ==> pool[i].name != pool[j].name
  }

  lemma {:induction false} BuildPoolDistinct(names: seq<string>, creatable: set<string>, next: nat)
    requires NoDup(names)
    ensures DistinctNames(BuildPool(names, creatable, next))
  {
    if names != [] {
      var n := |names| - 1;
      var rest := BuildPool(names[..n], creatable, next);
      BuildPoolDistinct(names[..n], creatable, next);
      BuildPoolNames(names[..n], creatable, next);
      forall i | 0 <= i < |rest|
        ensures rest[i].name != names[n]
      {
        assert rest[i] in rest && rest[i].name in Names(rest);
      }
    }
  }

  /** The clients come in the order of the configuration. */
  lemma {:induction false} BuildPoolInOrder(names: seq<string>, creatable: set<string>, next: nat, i: nat, j: nat,
                                            p: nat, q: nat)
    requires NoDup(names) && p < |names| && q < |names|
    requires var pool := BuildPool(names, creatable, next);
      i < j < |pool| && pool[i].name == names[p] && pool[j].name == names[q]
    ensures p < q
  {
    var n := |names| - 1;
    var rest := BuildPool(names[..n], creatable, next);
    BuildPoolNames(names[..n], creatable, next);
    assert i < |rest| ==> rest[i] in rest && rest[i].name in Names(rest);
    assert j < |rest| ==> rest[j] in rest && rest[j].name in Names(rest);
    if j < |rest| {
      BuildPoolInOrder(names[..n], creatable, next, i, j, p, q);
    }
  }

  predicate DistinctPc(pc: ReloadPc)
  {
    match pc
    case Loaded(names, _) => NoDup(names)
    case Built(pool) => DistinctNames(pool)
    case Swapped(_, pool, _) => DistinctNames(pool)
    case _ => true
  }

  /** Every list on its way to the collector, and every list it has held. */
  ghost predicate AllDistinct(s: State)
  {
    && NoDup(s.cfg) && NoDup(s.startCfg)
    && (forall pool :: pool in s.installed ==> DistinctNames(pool))
    && forall i :: 0 <= i < |s.reloaders| ==> DistinctPc(s.reloaders[i])
  }

  lemma DistinctMove(s: State, t: State, i: nat, pc: ReloadPc)
    requires AllDistinct(s) && i < |s.reloaders| && t.reloaders == s.reloaders[i := pc] && DistinctPc(pc)
    requires NoDup(t.cfg) && t.startCfg == s.startCfg
    requires forall pool :: pool in t.installed ==> pool in s.installed || DistinctNames(pool)
    ensures AllDistinct(t)
  {
  }

  lemma DistinctBuild(s: State, i: nat, creatable: set<string>)
    requires AllDistinct(s) && i < |s.reloaders|
    ensures AllDistinct(BuiltClients(s, i, creatable))
  {
    var pool := BuildPool(s.cfg, creatable, |s.built|);
    BuildPoolDistinct(s.cfg, creatable, |s.built|);
    DistinctMove(s, BuiltClients(s, i, creatable), i, if pool == [] then Idle else Built(pool));
  }

  lemma DistinctHandOver(s: State, a: Action)
    requires AllDistinct(s) && Enabled(s, a) && (a.SwapPool? || a.InstallPool?)
    ensures AllDistinct(Apply(s, a))
  {
    assert DistinctPc(s.reloaders[a.i]);
    if a.SwapPool? {
      DistinctMove(s, SwappedPool(s, a.i), a.i, SwappedPool(s, a.i).reloaders[a.i]);
    } else {
      DistinctMove(s, InstalledPool(s, a.i), a.i, Closing(s.reloaders[a.i].retired));
    }
  }

  lemma DistinctReload(s: State, a: Action)
    requires AllDistinct(s) && Enabled(s, a) && OfReload(a)
    ensures AllDistinct(Apply(s, a))
  {
    match a {
      case LoadConfig(i, names) => DistinctMove(s, LoadedConfig(s, i, names), i, Loaded(names, Elems(s.cfg)));
      case SwapConfig(i) =>
        assert DistinctPc(s.reloaders[i]);
        DistinctMove(s, SwappedConfig(s, i), i, SwappedConfig(s, i).reloaders[i]);
      case BuildClients(i, creatable) => DistinctBuild(s, i, creatable);
      case CloseOld(i) => DistinctMove(s, ClosedOld(s, i), i, Closing(s.reloaders[i].rest[1..]));
      case FinishReload(i) => DistinctMove(s, At(s, i, Idle), i, Idle);
      case _ => DistinctHandOver(s, a);
    }
  }

  lemma DistinctStep(s: State, a: Action)
    requires AllDistinct(s) && Enabled(s, a)
    ensures AllDistinct(Apply(s, a))
  {
    if OfReload(a) {
      DistinctReload(s, a);
    } else if a.StartBuild? {
      BuildPoolDistinct(s.startCfg, a.creatable, |s.built|);
      assert StartedBuild(s, a.creatable).reloaders == s.reloaders;
    } else {
      assert Apply(s, a).reloaders == s.reloaders && Apply(s, a).installed == s.installed;
    }
  }

  lemma {:induction false} DistinctRun(s: State, run: seq<Action>)
    requires AllDistinct(s) && Runs(s, run)
    ensures AllDistinct(After(s, run))
    decreases |run|
  {
    if run != [] {
      DistinctStep(s, run[0]);
      DistinctRun(Apply(s, run[0]), run[1..]);
    }
  }

  /** Whatever reloads do, no list the collector has ever held names one array twice. */
  lemma InstalledAreDistinct(s: State, run: seq<Action>, pool: Pool)
    requires Init(s) && Runs(s, run) && pool in After(s, run).installed
    ensures DistinctNames(pool)
  {
    DistinctRun(s, run);
  }
}
