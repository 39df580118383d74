/** Where the clients are: over every interleaving of start-up, any number of reloads and
    shutdown, each client ever built is in exactly one place. */
module PoolConservation {
  import opened Prelude
  import opened Pools

  /** How often client c occurs in a list. */
  function Count(pool: Pool, c: Client): nat
  {
    multiset(pool)[c]
  }

  /** How often a goroutine holds c: built and not handed over yet, or still to be closed. */
  function HeldBy(pc: ReloadPc, c: Client): nat
  {
    match pc
    case Built(pool) => Count(pool, c)
    case Swapped(retired, _, _) => Count(retired, c)
    case Closing(rest) => Count(rest, c)
    case _ => 0
  }

  function HeldByAll(rs: seq<ReloadPc>, c: Client): nat
  {
    if rs == [] then 0 else HeldBy(rs[0], c) + HeldByAll(rs[1..], c)
  }

  lemma {:induction false} HeldByAllUpdate(rs: seq<ReloadPc>, i: nat, pc: ReloadPc, c: Client)
    requires i < |rs|
    ensures HeldByAll(rs[i := pc], c) - HeldBy(pc, c) == HeldByAll(rs, c) - HeldBy(rs[i], c) >= 0
  {
    if i == 0 {
      assert rs[i := pc][1..] == rs[1..];
    } else {
      assert rs[i := pc][1..] == rs[1..][i - 1 := pc];
      HeldByAllUpdate(rs[1..], i - 1, pc, c);
    }
  }

  lemma {:induction false} HeldByNobody(rs: seq<ReloadPc>, c: Client)
    requires forall i :: 0 <= i < |rs| ==> rs[i].Idle?
    ensures HeldByAll(rs, c) == 0
  {
    if rs != [] {
      HeldByNobody(rs[1..], c);
    }
  }

  function HeldByStart(pc: StartPc, c: Client): nat
  {
    if pc.Created? then Count(pc.pool, c) else 0
  }

  function HeldByStop(pc: StopPc, c: Client): nat
  {
    if pc.Stopping? then Count(pc.rest, c) else 0
  }

  /** The number of places that hold c, over every list of the program. */
  function Places(s: State, c: Client): nat
  {
    Count(s.server, c) + Count(s.closed, c) + Count(s.lost, c)
    + HeldByAll(s.reloaders, c) + HeldByStart(s.start, c) + HeldByStop(s.stop, c)
  }

  predicate Counted(s: State, c: Client)
  {
    Places(s, c) == Count(s.built, c)
  }

  predicate Numbered(built: Pool)
  {
    NumberedFrom(built, 0)
  }

  /** Each client ever built is in exactly one place, and nothing else is anywhere. */
  ghost predicate Conserved(s: State)
  {
    Numbered(s.built) && forall c :: Counted(s, c)
  }

  lemma CountSplit(pool: Pool, c: Client)
    requires pool != []
    ensures Count(pool, c) == Count(pool[1..], c) + Count([pool[0]], c)
  {
    assert pool == [pool[0]] + pool[1..];
  }

  /** A step after which the only difference is what its own goroutine holds and what was built. */
  lemma CountedMove(s: State, t: State, i: nat, pc: ReloadPc, c: Client)
    requires Counted(s, c) && i < |s.reloaders|
    requires t.reloaders == s.reloaders[i := pc]
    requires HeldBy(pc, c) - HeldBy(s.reloaders[i], c) == Count(t.built, c) - Count(s.built, c)
    requires t.server == s.server && t.closed == s.closed && t.lost == s.lost
    requires t.start == s.start && t.stop == s.stop
    ensures Counted(t, c)
  {
    HeldByAllUpdate(s.reloaders, i, pc, c);
  }

  lemma CountedBuild(s: State, i: nat, creatable: set<string>, c: Client)
    requires Counted(s, c) && i < |s.reloaders| && s.reloaders[i].Rebuild?
    ensures Counted(BuiltClients(s, i, creatable), c)
  {
    var pool := BuildPool(s.cfg, creatable, |s.built|);
    CountedMove(s, BuiltClients(s, i, creatable), i, if pool == [] then Idle else Built(pool), c);
  }

  lemma CountedSwap(s: State, i: nat, c: Client)
    requires Counted(s, c) && i < |s.reloaders| && s.reloaders[i].Built?
    ensures Counted(SwappedPool(s, i), c)
  {
    HeldByAllUpdate(s.reloaders, i, SwappedPool(s, i).reloaders[i], c);
  }

  lemma CountedClose(s: State, i: nat, c: Client)
    requires Counted(s, c) && i < |s.reloaders| && s.reloaders[i].Closing? && s.reloaders[i].rest != []
    ensures Counted(ClosedOld(s, i), c)
  {
    CountSplit(s.reloaders[i].rest, c);
    HeldByAllUpdate(s.reloaders, i, ClosedOld(s, i).reloaders[i], c);
  }

  lemma CountedConfig(s: State, i: nat, names: seq<string>, c: Client)
    requires Counted(s, c) && i < |s.reloaders|
    ensures s.reloaders[i].Idle? ==> Counted(LoadedConfig(s, i, names), c)
    ensures s.reloaders[i].Loaded? ==> Counted(SwappedConfig(s, i), c)
  {
    if s.reloaders[i].Idle? {
      CountedMove(s, LoadedConfig(s, i, names), i, Loaded(names, Elems(s.cfg)), c);
    } else if s.reloaders[i].Loaded? {
      CountedMove(s, SwappedConfig(s, i), i, SwappedConfig(s, i).reloaders[i], c);
    }
  }

  lemma CountedInstall(s: State, i: nat, c: Client)
    requires Counted(s, c) && i < |s.reloaders| && s.reloaders[i].Swapped?
    ensures Counted(InstalledPool(s, i), c)
  {
    CountedMove(s, InstalledPool(s, i), i, Closing(s.reloaders[i].retired), c);
  }

  lemma CountedCreated(s: State, t: State, pool: Pool, c: Client)
    requires Counted(s, c) && s.start.NotStarted?
    requires t.start == Created(pool) && Count(t.built, c) == Count(s.built, c) + Count(pool, c)
    requires t.server == s.server && t.closed == s.closed && t.lost == s.lost
    requires t.reloaders == s.reloaders && t.stop == s.stop
    ensures Counted(t, c)
  {
  }

  lemma CountedStartBuild(s: State, creatable: set<string>, c: Client)
    requires Counted(s, c) && s.start.NotStarted?
    ensures Counted(StartedBuild(s, creatable), c)
  {
    var pool := BuildPool(s.startCfg, creatable, |s.built|);
    if pool != [] {
      CountedCreated(s, StartedBuild(s, creatable), pool, c);
    }
  }

  lemma CountedStartStore(s: State, c: Client)
    requires Counted(s, c) && s.start.Created?
    ensures Counted(StartedStore(s), c)
  {
    assert Count(s.lost + s.server, c) == Count(s.lost, c) + Count(s.server, c);
  }

  lemma CountedStop(s: State, c: Client)
    requires Counted(s, c)
    ensures s.stop.Running? ==> Counted(StoppedSwap(s), c)
    ensures s.stop.Stopping? && s.stop.rest != [] ==> Counted(StoppedClose(s), c)
    ensures s.stop == Stopping([]) ==> Counted(s.(stop := Stopped), c)
  {
    if s.stop.Stopping? && s.stop.rest != [] {
      CountSplit(s.stop.rest, c);
    }
  }

  lemma CountedStep(s: State, a: Action, c: Client)
    requires Counted(s, c) && Enabled(s, a)
    ensures Counted(Apply(s, a), c)
  {
    match a {
      case LoadConfig(i, names) => CountedConfig(s, i, names, c);
      case SwapConfig(i) => CountedConfig(s, i, [], c);
      case BuildClients(i, creatable) => CountedBuild(s, i, creatable, c);
      case SwapPool(i) => CountedSwap(s, i, c);
      case InstallPool(i) => CountedInstall(s, i, c);
      case CloseOld(i) => CountedClose(s, i, c);
      case FinishReload(i) => CountedMove(s, At(s, i, Idle), i, Idle, c);
      case StartBuild(creatable) => CountedStartBuild(s, creatable, c);
      case StartStore => CountedStartStore(s, c);
      case _ => CountedStop(s, c);
    }
  }

  lemma NumberedStep(s: State, a: Action)
    requires Numbered(s.built) && Enabled(s, a)
    ensures Numbered(Apply(s, a).built)
  {
    match a {
      case BuildClients(i, creatable) => assert Numbered(s.built + BuildPool(s.cfg, creatable, |s.built|));
      case StartBuild(creatable) => assert Numbered(s.built + BuildPool(s.startCfg, creatable, |s.built|));
      case _ => assert Apply(s, a).built == s.built;
    }
  }

  lemma ConservedStep(s: State, a: Action)
    requires Conserved(s) && Enabled(s, a)
    ensures Conserved(Apply(s, a))
  {
    NumberedStep(s, a);
    forall c
      ensures Counted(Apply(s, a), c)
    {
      CountedStep(s, a, c);
    }
  }

  lemma ConservedInit(s: State)
    requires Init(s)
    ensures Conserved(s)
  {
    forall c
      ensures Counted(s, c)
    {
      HeldByNobody(s.reloaders, c);
    }
  }

  lemma {:induction false} ConservedRun(s: State, run: seq<Action>)
    requires Conserved(s) && Runs(s, run)
    ensures Conserved(After(s, run))
    decreases |run|
  {
    if run != [] {
      ConservedStep(s, run[0]);
      ConservedRun(Apply(s, run[0]), run[1..]);
    }
  }

  lemma CountBuilt(s: State, c: Client)
    requires Conserved(s)
    ensures Places(s, c) == if c in s.built then 1 else 0
  {
    assert Counted(s, c);
    NoDupMultiplicity(s.built, c);
  }

  /** No client is ever closed twice, and only clients that were built are closed. */
  lemma NeverClosedTwice(s: State, run: seq<Action>)
    requires Init(s) && Runs(s, run)
    ensures var t := After(s, run); NoDup(t.closed) && Elems(t.closed) <= Elems(t.built)
  {
    ConservedInit(s);
    ConservedRun(s, run);
    var t := After(s, run);
    forall c | c in t.closed
      ensures multiset(t.closed)[c] <= 1 && c in t.built
    {
      CountBuilt(t, c);
      assert Count(t.closed, c) >= 1;
    }
    MultiplicityNoDup(t.closed);
  }
}
