/** The client pools during start-up, hot reloads and shutdown, one atomic step per critical
    section of main.go and safe_config.go. Reloads may run on any number of goroutines. */
module Pools {
  import opened Prelude

  datatype Client = Client(id: nat, name: string)

  type Pool = seq<Client>

  /** Where one goroutine stands inside Server.ReloadConfig. */
  datatype ReloadPc =
    | Idle
    | Loaded(names: seq<string>, seen: set<string>)           // old name set read, lock not taken yet
    | Rebuild                                                 // config swapped, array set changed
    | Built(pool: Pool)                                       // new clients exist, Server.mu not taken yet
    | Swapped(retired: Pool, pool: Pool, hasCollector: bool)      // Server.mu released, SetClients not called yet
    | Closing(rest: Pool)                                     // old clients still to be closed

  datatype StartPc = NotStarted | Failed | Created(pool: Pool) | Stored

  datatype StopPc = Running | Stopping(rest: Pool) | Stopped

  datatype State = State(
    cfg: seq<string>,          // array names of the current configuration
    startCfg: seq<string>,     // array names of the configuration Start captured
    server: Pool,              // Server.clients; nil is []
    hasCollector: bool,        // Server.collector != nil
    collector: Pool,           // Collector.clients
    start: StartPc,
    reloaders: seq<ReloadPc>,
    stop: StopPc,
    // history; FlagsDescribeRun says what the four flags record
    built: Pool,               // every client ever built, in order
    closed: Pool,              // every Close call, in order
    lost: Pool,                // clients overwritten by startCollection without a Close
    installed: set<Pool>,      // every list the collector has ever held
    rebuilt: bool,             // the last array-set change produced a new pool
    stray: bool,               // a pool was stored before start-up ended or after shutdown began
    overlapped: bool,          // a pool was swapped while another reload had yet to call SetClients
    raced: bool)               // a reload began while another one was still going on

  datatype Action =
    | LoadConfig(i: nat, names: seq<string>)
    | SwapConfig(i: nat)
    | BuildClients(i: nat, creatable: set<string>)
    | SwapPool(i: nat)
    | InstallPool(i: nat)
    | CloseOld(i: nat)
    | FinishReload(i: nat)
    | StartBuild(creatable: set<string>)
    | StartStore
    | StopSwap
    | StopClose
    | StopFinish

  /** buildClients: one client per creatable array, in configuration order, with fresh ids. */
  function BuildPool(names: seq<string>, creatable: set<string>, next: nat): (pool: Pool)
    ensures NumberedFrom(pool, next)
  {
    if names == [] then []
    else
      var n := |names| - 1;
      var rest := BuildPool(names[..n], creatable, next);
      if names[n] in creatable then rest + [Client(next + |rest|, names[n])] else rest
  }

  predicate NumberedFrom(pool: Pool, next: nat)
  {
    forall k :: 0 <= k < |pool| ==> pool[k].id == next + k
  }

  function Names(pool: Pool): set<string>
  {
    set c | c in pool :: c.name
  }

  /** The pool's names are exactly the creatable ones among the configured names. */
  lemma {:induction false} BuildPoolNames(names: seq<string>, creatable: set<string>, next: nat)
    ensures Names(BuildPool(names, creatable, next)) == Elems(names) * creatable
    ensures BuildPool(names, creatable, next) == [] <==> Elems(names) !! creatable
  {
    if names != [] {
      var n := |names| - 1;
      BuildPoolNames(names[..n], creatable, next);
      var pool, rest := BuildPool(names, creatable, next), BuildPool(names[..n], creatable, next);
      assert Elems(names) == Elems(names[..n]) + {names[n]};
      if names[n] in creatable {
        assert pool[|rest|] in pool;
        assert Names(pool) == Names(rest) + {names[n]};
      }
    }
  }

  predicate OfReload(a: Action)
  {
    !(a.StartBuild? || a.StartStore? || a.StopSwap? || a.StopClose? || a.StopFinish?)
  }

  predicate Enabled(s: State, a: Action)
  {
    match a
    case LoadConfig(i, names) => i < |s.reloaders| && s.reloaders[i].Idle? && names != [] && NoDup(names)
    case SwapConfig(i) => i < |s.reloaders| && s.reloaders[i].Loaded?
    case BuildClients(i, _) => i < |s.reloaders| && s.reloaders[i].Rebuild?
    case SwapPool(i) => i < |s.reloaders| && s.reloaders[i].Built?
    case InstallPool(i) => i < |s.reloaders| && s.reloaders[i].Swapped?
    case CloseOld(i) => i < |s.reloaders| && s.reloaders[i].Closing? && s.reloaders[i].rest != []
    case FinishReload(i) => i < |s.reloaders| && s.reloaders[i].Closing? && s.reloaders[i].rest == []
    case StartBuild(_) => s.start.NotStarted?
    case StartStore => s.start.Created?
    case StopSwap => s.stop.Running?
    case StopClose => s.stop.Stopping? && s.stop.rest != []
    case StopFinish => s.stop.Stopping? && s.stop.rest == []
  }

  function At(s: State, i: nat, pc: ReloadPc): State
    requires i < |s.reloaders|
  {
    s.(reloaders := s.reloaders[i := pc])
  }

  /** Is a goroutine other than i between its pool swap and its SetClients call? */
  predicate WindowOpenBeside(s: State, i: nat)
  {
    exists j :: 0 <= j < |s.reloaders| && j != i && s.reloaders[j].Swapped?
  }

  predicate BusyBeside(s: State, i: nat)
  {
    exists j :: 0 <= j < |s.reloaders| && j != i && !s.reloaders[j].Idle?
  }

  /** Between the end of startCollection and the start of stopCollection. */
  predicate Open(s: State)
  {
    s.start.Stored? && s.stop.Running?
  }

  // SafeConfig.ReloadConfig reads the old names before it takes the write lock.
  function LoadedConfig(s: State, i: nat, names: seq<string>): State
    requires i < |s.reloaders|
  {
    At(s, i, Loaded(names, Elems(s.cfg))).(raced := s.raced || BusyBeside(s, i))
  }

  function SwappedConfig(s: State, i: nat): State
    requires i < |s.reloaders| && s.reloaders[i].Loaded?
  {
    var pc := s.reloaders[i];
    At(s, i, if pc.seen == Elems(pc.names) then Idle else Rebuild).(cfg := pc.names)
  }

  function BuiltClients(s: State, i: nat, creatable: set<string>): State
    requires i < |s.reloaders|
  {
    var pool := BuildPool(s.cfg, creatable, |s.built|);
    if pool == [] then At(s, i, Idle).(rebuilt := false)
    else At(s, i, Built(pool)).(built := s.built + pool)
  }

  function SwappedPool(s: State, i: nat): State
    requires i < |s.reloaders| && s.reloaders[i].Built?
  {
    var pool := s.reloaders[i].pool;
    At(s, i, Swapped(s.server, pool, s.hasCollector)).(
      server := pool, rebuilt := true,
      stray := s.stray || !Open(s),
      overlapped := s.overlapped || WindowOpenBeside(s, i))
  }

  function InstalledPool(s: State, i: nat): State
    requires i < |s.reloaders| && s.reloaders[i].Swapped?
  {
    var pc := s.reloaders[i];
    var t := At(s, i, Closing(pc.retired));
    if pc.hasCollector then t.(collector := pc.pool, installed := s.installed + {pc.pool}) else t
  }

  function ClosedOld(s: State, i: nat): State
    requires i < |s.reloaders| && s.reloaders[i].Closing? && s.reloaders[i].rest != []
  {
    var rest := s.reloaders[i].rest;
    At(s, i, Closing(rest[1..])).(closed := s.closed + [rest[0]])
  }

  function StartedBuild(s: State, creatable: set<string>): State
  {
    var pool := BuildPool(s.startCfg, creatable, |s.built|);
    if pool == [] then s.(start := Failed)
    else s.(start := Created(pool), collector := pool, installed := s.installed + {pool}, built := s.built + pool)
  }

  function StartedStore(s: State): State
    requires s.start.Created?
  {
    s.(start := Stored, server := s.start.pool, hasCollector := true, lost := s.lost + s.server,
       stray := s.stray || !s.stop.Running?)
  }

  function StoppedSwap(s: State): State
  {
    s.(stop := Stopping(s.server), server := [], hasCollector := false)
  }

  function StoppedClose(s: State): State
    requires s.stop.Stopping? && s.stop.rest != []
  {
    s.(stop := Stopping(s.stop.rest[1..]), closed := s.closed + [s.stop.rest[0]])
  }

  function Apply(s: State, a: Action): State
    requires Enabled(s, a)
  {
    match a
    case LoadConfig(i, names) => LoadedConfig(s, i, names)
    case SwapConfig(i) => SwappedConfig(s, i)
    case BuildClients(i, creatable) => BuiltClients(s, i, creatable)
    case SwapPool(i) => SwappedPool(s, i)
    case InstallPool(i) => InstalledPool(s, i)
    case CloseOld(i) => ClosedOld(s, i)
    case FinishReload(i) => At(s, i, Idle)
    case StartBuild(creatable) => StartedBuild(s, creatable)
    case StartStore => StartedStore(s)
    case StopSwap => StoppedSwap(s)
    case StopClose => StoppedClose(s)
    case StopFinish => s.(stop := Stopped)
  }

  predicate Init(s: State)
  {
    && s.cfg == s.startCfg && s.cfg != [] && NoDup(s.cfg)
    && s.server == [] && !s.hasCollector && s.collector == [] && s.start.NotStarted?
    && AllIdle(s)
    && s.stop.Running?
    && s.built == [] && s.closed == [] && s.lost == [] && s.installed == {}
    && s.rebuilt && !s.stray && !s.overlapped && !s.raced
  }

  /** Every action of the run is enabled where it is taken. */
  predicate Runs(s: State, run: seq<Action>)
    decreases |run|
  {
    run == [] || (Enabled(s, run[0]) && Runs(Apply(s, run[0]), run[1..]))
  }

  function After(s: State, run: seq<Action>): State
    requires Runs(s, run)
    decreases |run|
  {
    if run == [] then s else After(Apply(s, run[0]), run[1..])
  }

  predicate AllIdle(s: State)
  {
    forall i :: 0 <= i < |s.reloaders| ==> s.reloaders[i].Idle?
  }

  lemma {:induction false} RunsConcat(s: State, first: seq<Action>, second: seq<Action>)
    requires Runs(s, first) && Runs(After(s, first), second)
    ensures Runs(s, first + second) && After(s, first + second) == After(After(s, first), second)
    decreases |first|
  {
    if first == [] {
      assert first + second == second;
    } else {
      assert (first + second)[1..] == first[1..] + second;
      RunsConcat(Apply(s, first[0]), first[1..], second);
    }
  }

  lemma RunsCons(s: State, a: Action, rest: seq<Action>)
    requires Enabled(s, a) && Runs(Apply(s, a), rest)
    ensures Runs(s, [a] + rest) && After(s, [a] + rest) == After(Apply(s, a), rest)
  {
    assert ([a] + rest)[1..] == rest;
  }

  lemma RunsOne(s: State, a: Action)
    requires Enabled(s, a)
    ensures Runs(s, [a]) && After(s, [a]) == Apply(s, a)
  {
    var t := Apply(s, a);
    assert [a][1..] == [] && Runs(t, []) && After(t, []) == t;
  }

  /** A run that ends in t, and one more step. */
  lemma RunsThen(s: State, run: seq<Action>, t: State, a: Action)
    requires Runs(s, run) && After(s, run) == t && Enabled(t, a)
    ensures Runs(s, run + [a]) && After(s, run + [a]) == Apply(t, a)
  {
    RunsOne(t, a);
    RunsConcat(s, run, [a]);
  }

  /** A pool is stored before start-up has ended or after shutdown has begun. */
  predicate Misplaced(s: State, a: Action)
  {
    (a.SwapPool? && !Open(s)) || (a.StartStore? && !s.stop.Running?)
  }

  /** A pool is swapped while another reload has yet to call SetClients. */
  predicate IntoWindow(s: State, a: Action)
  {
    a.SwapPool? && WindowOpenBeside(s, a.i)
  }

  /** A reload begins while another one is still going on. */
  predicate IntoReload(s: State, a: Action)
  {
    a.LoadConfig? && BusyBeside(s, a.i)
  }

  /** Some action of the run is taken where p holds. */
  ghost predicate Sometime(p: (State, Action) -> bool, s: State, run: seq<Action>)
    requires Runs(s, run)
    decreases |run|
  {
    run != [] && (p(s, run[0]) || Sometime(p, Apply(s, run[0]), run[1..]))
  }

  /** Most steps of a reload touch the configuration, its own program counter and the history only. */
  predicate OfOwn(a: Action)
  {
    a.LoadConfig? || a.SwapConfig? || a.BuildClients? || a.CloseOld? || a.FinishReload?
  }

  predicate SameElsewhere(s: State, t: State)
  {
    && t.start == s.start && t.stop == s.stop && t.stray == s.stray && t.overlapped == s.overlapped
    && t.collector == s.collector && t.installed == s.installed && t.server == s.server && t.lost == s.lost
  }

  lemma OwnConfigStep(s: State, i: nat, names: seq<string>)
    requires i < |s.reloaders|
    ensures SameElsewhere(s, LoadedConfig(s, i, names)) && SameElsewhere(s, At(s, i, Idle))
    ensures s.reloaders[i].Loaded? ==> SameElsewhere(s, SwappedConfig(s, i))
  {
  }

  lemma OwnBuildStep(s: State, i: nat, creatable: set<string>)
    requires i < |s.reloaders|
    ensures SameElsewhere(s, BuiltClients(s, i, creatable))
  {
    var pool := BuildPool(s.cfg, creatable, |s.built|);
    if pool == [] {
      assert BuiltClients(s, i, creatable) == At(s, i, Idle).(rebuilt := false);
    } else {
      assert BuiltClients(s, i, creatable) == At(s, i, Built(pool)).(built := s.built + pool);
    }
  }

  lemma OwnCloseStep(s: State, i: nat)
    requires i < |s.reloaders| && s.reloaders[i].Closing? && s.reloaders[i].rest != []
    ensures SameElsewhere(s, ClosedOld(s, i))
  {
  }

  lemma OwnStep(s: State, a: Action)
    requires Enabled(s, a) && OfOwn(a)
    ensures SameElsewhere(s, Apply(s, a))
  {
    if a.CloseOld? {
      OwnCloseStep(s, a.i);
    } else if a.BuildClients? {
      OwnBuildStep(s, a.i, a.creatable);
    } else {
      OwnConfigStep(s, a.i, if a.LoadConfig? then a.names else []);
    }
  }

  lemma FlagStep(s: State, a: Action)
    requires Enabled(s, a)
    ensures Apply(s, a).stray == (s.stray || Misplaced(s, a))
    ensures Apply(s, a).overlapped == (s.overlapped || IntoWindow(s, a))
  {
    if OfOwn(a) {
      OwnStep(s, a);
    }
  }

  lemma RacedStep(s: State, a: Action)
    requires Enabled(s, a)
    ensures Apply(s, a).raced == (s.raced || IntoReload(s, a))
  {
    if a.LoadConfig? {
      assert Apply(s, a).raced == (s.raced || BusyBeside(s, a.i));
    } else {
      assert Apply(s, a).raced == s.raced;
    }
  }

  /** A reload finds no client it could build. */
  predicate FailsToBuild(s: State, a: Action)
  {
    a.BuildClients? && BuildPool(s.cfg, a.creatable, |s.built|) == []
  }

  predicate NoSwap(run: seq<Action>)
  {
    forall k :: 0 <= k < |run| ==> !run[k].SwapPool?
  }

  /** Some reload of the run finds no client it could build, and no pool is swapped afterwards. */
  ghost predicate EndsUnbuilt(s: State, run: seq<Action>)
    requires Runs(s, run)
    decreases |run|
  {
    run != [] && ((FailsToBuild(s, run[0]) && NoSwap(run[1..])) || EndsUnbuilt(Apply(s, run[0]), run[1..]))
  }

  lemma RebuiltStep(s: State, a: Action)
    requires Enabled(s, a)
    ensures Apply(s, a).rebuilt == (a.SwapPool? || (s.rebuilt && !FailsToBuild(s, a)))
  {
    if a.BuildClients? {
      assert Apply(s, a) == BuiltClients(s, a.i, a.creatable);
    } else if !a.SwapPool? {
      assert Apply(s, a).rebuilt == s.rebuilt;
    }
  }

  lemma {:induction false} RebuiltDescribesRun(s: State, run: seq<Action>)
    requires Runs(s, run)
    ensures After(s, run).rebuilt == (!EndsUnbuilt(s, run) && (s.rebuilt || !NoSwap(run)))
    decreases |run|
  {
    if run != [] {
      RebuiltStep(s, run[0]);
      RebuiltDescribesRun(Apply(s, run[0]), run[1..]);
      assert run == [run[0]] + run[1..];
      assert NoSwap(run) == (!run[0].SwapPool? && NoSwap(run[1..]));
    }
  }

  lemma {:induction false} FlagsDescribeRun(s: State, run: seq<Action>)
    requires Runs(s, run)
    ensures After(s, run).stray == (s.stray || Sometime(Misplaced, s, run))
    ensures After(s, run).overlapped == (s.overlapped || Sometime(IntoWindow, s, run))
    ensures After(s, run).raced == (s.raced || Sometime(IntoReload, s, run))
    ensures After(s, run).rebuilt == (!EndsUnbuilt(s, run) && (s.rebuilt || !NoSwap(run)))
    decreases |run|
  {
    RebuiltDescribesRun(s, run);
    if run != [] {
      FlagStep(s, run[0]);
      RacedStep(s, run[0]);
      FlagsDescribeRun(Apply(s, run[0]), run[1..]);
    }
  }
}
