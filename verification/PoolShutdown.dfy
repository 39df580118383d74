/** What is left open after shutdown. Once start-up has finished, shutdown has finished and
    every reload has returned, every client ever built has been closed exactly when no pool was
    stored outside the time between the two. */
module PoolShutdown {
  import opened Prelude
  import opened Pools
  import opened PoolConservation

  predicate PoolsNonEmpty(s: State)
  {
    && (s.start.Created? ==> s.start.pool != [])
    && forall i :: 0 <= i < |s.reloaders| ==> NonEmpty(s.reloaders[i])
  }

  predicate NonEmpty(pc: ReloadPc)
  {
    pc.Built? || pc.Swapped? ==> pc.pool != []
  }

  /** A well-placed run has lost nothing and left nothing behind. */
  predicate NothingAstray(s: State)
  {
    !s.stray ==> s.lost == [] && (Open(s) || s.server == [])
  }

  /** A badly placed one has lost a client, left one behind, or will lose one when start-up stores its pool. */
  predicate SomethingAstray(s: State)
  {
    && (s.stray && s.start.Stored? ==> s.lost != [] || (!s.stop.Running? && s.server != []))
    && (s.stray && !s.start.Stored? && s.stop.Running? ==> s.server != [])
  }

  /** Between start-up and shutdown the server has clients. */
  predicate Serving(s: State)
  {
    Open(s) ==> s.server != []
  }

  predicate Accounted(s: State)
  {
    PoolsNonEmpty(s) && NothingAstray(s) && SomethingAstray(s) && Serving(s)
  }

  lemma AccountedMove(s: State, t: State, i: nat, pc: ReloadPc)
    requires Accounted(s) && i < |s.reloaders| && t.reloaders == s.reloaders[i := pc] && NonEmpty(pc)
    requires t.start == s.start && t.stop == s.stop && t.lost == s.lost
    requires t.server == s.server && t.stray == s.stray
    ensures Accounted(t)
  {
  }

  lemma AccountedSwap(s: State, i: nat)
    requires Accounted(s) && Enabled(s, SwapPool(i))
    ensures Accounted(SwappedPool(s, i))
  {
    assert NonEmpty(s.reloaders[i]);
    var t := SwappedPool(s, i);
    assert forall j :: 0 <= j < |t.reloaders| ==> j == i || t.reloaders[j] == s.reloaders[j];
  }

  lemma AccountedBuild(s: State, i: nat, creatable: set<string>)
    requires Accounted(s) && i < |s.reloaders|
    ensures Accounted(BuiltClients(s, i, creatable))
  {
    var pool := BuildPool(s.cfg, creatable, |s.built|);
    AccountedMove(s, BuiltClients(s, i, creatable), i, if pool == [] then Idle else Built(pool));
  }

  lemma AccountedInstall(s: State, i: nat)
    requires Accounted(s) && Enabled(s, InstallPool(i))
    ensures Accounted(InstalledPool(s, i))
  {
    AccountedMove(s, InstalledPool(s, i), i, Closing(s.reloaders[i].retired));
  }

  lemma AccountedEnd(s: State, a: Action)
    requires Accounted(s) && Enabled(s, a) && (a.InstallPool? || a.CloseOld? || a.FinishReload?)
    ensures Accounted(Apply(s, a))
  {
    match a {
      case InstallPool(i) => AccountedInstall(s, i);
      case CloseOld(i) => AccountedMove(s, ClosedOld(s, i), i, Closing(s.reloaders[i].rest[1..]));
      case FinishReload(i) => AccountedMove(s, At(s, i, Idle), i, Idle);
    }
  }

  lemma AccountedReload(s: State, a: Action)
    requires Accounted(s) && Enabled(s, a) && OfReload(a)
    ensures Accounted(Apply(s, a))
  {
    match a {
      case LoadConfig(i, names) => AccountedMove(s, Apply(s, a), i, Loaded(names, Elems(s.cfg)));
      case SwapConfig(i) => AccountedMove(s, Apply(s, a), i, SwappedConfig(s, i).reloaders[i]);
      case BuildClients(i, creatable) => AccountedBuild(s, i, creatable);
      case SwapPool(i) => AccountedSwap(s, i);
      case _ => AccountedEnd(s, a);
    }
  }

  lemma AccountedCreate(s: State, creatable: set<string>)
    requires Accounted(s) && s.start.NotStarted?
    ensures Accounted(StartedBuild(s, creatable))
  {
    var t := StartedBuild(s, creatable);
    assert t.reloaders == s.reloaders && PoolsNonEmpty(t);
  }

  lemma AccountedStore(s: State)
    requires Accounted(s) && s.start.Created?
    ensures Accounted(StartedStore(s))
  {
    var t := StartedStore(s);
    assert t.reloaders == s.reloaders && PoolsNonEmpty(t);
  }

  lemma AccountedStop(s: State)
    requires Accounted(s)
    ensures s.stop.Running? ==> Accounted(StoppedSwap(s))
    ensures s.stop.Stopping? && s.stop.rest != [] ==> Accounted(StoppedClose(s))
    ensures s.stop == Stopping([]) ==> Accounted(s.(stop := Stopped))
  {
  }

  lemma AccountedStep(s: State, a: Action)
    requires Accounted(s) && Enabled(s, a)
    ensures Accounted(Apply(s, a))
  {
    if OfReload(a) {
      AccountedReload(s, a);
    } else if a.StartBuild? {
      AccountedCreate(s, a.creatable);
    } else if a.StartStore? {
      AccountedStore(s);
    } else {
      AccountedStop(s);
    }
  }

  lemma {:induction false} AccountedRun(s: State, run: seq<Action>)
    requires Accounted(s) && Runs(s, run)
    ensures Accounted(After(s, run))
    decreases |run|
  {
    if run != [] {
      AccountedStep(s, run[0]);
      AccountedRun(Apply(s, run[0]), run[1..]);
    }
  }

  /** Nobody is at work any more. */
  predicate Ended(s: State)
  {
    !s.start.Created? && s.stop.Stopped? && AllIdle(s)
  }

  /** And start-up had succeeded. */
  predicate Finished(s: State)
  {
    s.start.Stored? && Ended(s)
  }

  ghost predicate EachClosedOnce(s: State)
  {
    NoDup(s.closed) && Elems(s.closed) == Elems(s.built)
  }

  lemma LeftOpen(s: State, pool: Pool, c: Client)
    requires Conserved(s) && (pool == s.lost || pool == s.server) && c in pool
    ensures c in s.built && c !in s.closed && Elems(s.closed) != Elems(s.built)
  {
    CountBuilt(s, c);
    assert Count(pool, c) >= 1;
    assert c in Elems(s.built) && c !in Elems(s.closed);
  }

  lemma ClosedOnceIffNothingLeft(s: State)
    requires Conserved(s) && Ended(s)
    ensures EachClosedOnce(s) <==> s.lost == [] && s.server == []
  {
    if s.lost != [] {
      LeftOpen(s, s.lost, s.lost[0]);
    } else if s.server != [] {
      LeftOpen(s, s.server, s.server[0]);
    } else {
      forall c
        ensures multiset(s.closed)[c] <= 1 && (c in s.closed <==> c in s.built)
      {
        CountBuilt(s, c);
        HeldByNobody(s.reloaders, c);
        assert Count(s.closed, c) == if c in s.built then 1 else 0;
      }
      MultiplicityNoDup(s.closed);
    }
  }

  /** Every client is closed exactly once by the end if and only if no pool was stored before
      start-up ended or after shutdown began. */
  lemma ShutdownClosesEverything(s: State, run: seq<Action>)
    requires Init(s) && Runs(s, run) && Finished(After(s, run))
    ensures EachClosedOnce(After(s, run)) <==> !After(s, run).stray
  {
    ConservedInit(s);
    ConservedRun(s, run);
    AccountedRun(s, run);
    ClosedOnceIffNothingLeft(After(s, run));
  }

  // ---------------------------------------------------------------- when start-up built no client

  /** A reload stores its pool after shutdown has taken the server's. */
  predicate LateSwap(s: State, a: Action)
  {
    a.SwapPool? && !s.stop.Running?
  }

  /** As long as start-up has stored nothing, only such a swap leaves anything behind. */
  predicate NothingStored(s: State, late: bool)
  {
    !s.start.Stored? ==> s.lost == [] && (if s.stop.Running? then !late else s.server != [] <==> late)
  }

  lemma NothingStoredReload(s: State, late: bool, a: Action)
    requires NothingStored(s, late) && PoolsNonEmpty(s) && Enabled(s, a) && OfReload(a)
    ensures NothingStored(Apply(s, a), late || LateSwap(s, a))
  {
    if OfOwn(a) {
      OwnStep(s, a);
    } else if a.SwapPool? {
      assert NonEmpty(s.reloaders[a.i]) && Apply(s, a) == SwappedPool(s, a.i);
    } else {
      assert Apply(s, a) == InstalledPool(s, a.i);
    }
  }

  lemma NothingStoredOther(s: State, late: bool, a: Action)
    requires NothingStored(s, late) && Enabled(s, a) && !OfReload(a)
    ensures NothingStored(Apply(s, a), late)
  {
  }

  lemma {:induction false} NothingStoredRun(s: State, late: bool, run: seq<Action>)
    requires NothingStored(s, late) && Accounted(s) && Runs(s, run)
    ensures NothingStored(After(s, run), late || Sometime(LateSwap, s, run))
    decreases |run|
  {
    if run != [] {
      if OfReload(run[0]) {
        NothingStoredReload(s, late, run[0]);
      } else {
        NothingStoredOther(s, late, run[0]);
      }
      AccountedStep(s, run[0]);
      NothingStoredRun(Apply(s, run[0]), late || LateSwap(s, run[0]), run[1..]);
    }
  }

  /** When start-up built no client, or never ran: everything that reloads built is closed exactly once if
      and only if none of them stored its pool after shutdown began. */
  lemma FailedStartClosesIff(s: State, run: seq<Action>)
    requires Init(s) && Runs(s, run) && Ended(After(s, run)) && !After(s, run).start.Stored?
    ensures EachClosedOnce(After(s, run)) <==> !Sometime(LateSwap, s, run)
  {
    ConservedInit(s);
    ConservedRun(s, run);
    NothingStoredRun(s, false, run);
    ClosedOnceIffNothingLeft(After(s, run));
  }

  // ---------------------------------------------------------------- what the collector is left with

  predicate KnownPool(pool: Pool, built: Pool)
  {
    pool != [] && forall c :: c in pool ==> c in built
  }

  predicate KnownPc(pc: ReloadPc, built: Pool)
  {
    pc.Built? || pc.Swapped? ==> KnownPool(pc.pool, built)
  }

  /** Whatever the collector uses, or may come to use, was built. */
  predicate Known(s: State)
  {
    && (s.start.Created? ==> KnownPool(s.start.pool, s.built))
    && (s.start.Created? || s.start.Stored? ==> KnownPool(s.collector, s.built))
    && forall i :: 0 <= i < |s.reloaders| ==> KnownPc(s.reloaders[i], s.built)
  }

  lemma KnownMove(s: State, t: State, i: nat, pc: ReloadPc)
    requires Known(s) && i < |s.reloaders| && t.reloaders == s.reloaders[i := pc] && KnownPc(pc, t.built)
    requires forall c :: c in s.built ==> c in t.built
    requires t.start == s.start && (t.collector == s.collector || KnownPool(t.collector, s.built))
    ensures Known(t)
  {
    forall k: nat | k < |t.reloaders|
      ensures KnownPc(t.reloaders[k], t.built)
    {
      assert KnownPc(s.reloaders[k], s.built);
    }
  }

  lemma KnownRebuild(s: State, i: nat, creatable: set<string>)
    requires Known(s) && i < |s.reloaders|
    ensures Known(BuiltClients(s, i, creatable))
  {
    var pool := BuildPool(s.cfg, creatable, |s.built|);
    KnownMove(s, BuiltClients(s, i, creatable), i, if pool == [] then Idle else Built(pool));
  }

  lemma KnownInstall(s: State, i: nat)
    requires Known(s) && i < |s.reloaders| && s.reloaders[i].Swapped?
    ensures Known(InstalledPool(s, i))
  {
    assert KnownPc(s.reloaders[i], s.built);
    KnownMove(s, InstalledPool(s, i), i, Closing(s.reloaders[i].retired));
  }

  lemma KnownReload(s: State, a: Action)
    requires Known(s) && Enabled(s, a) && OfReload(a)
    ensures Known(Apply(s, a))
  {
    match a {
      case LoadConfig(i, names) => KnownMove(s, LoadedConfig(s, i, names), i, Loaded(names, Elems(s.cfg)));
      case SwapConfig(i) => KnownMove(s, SwappedConfig(s, i), i, SwappedConfig(s, i).reloaders[i]);
      case BuildClients(i, creatable) => KnownRebuild(s, i, creatable);
      case SwapPool(i) =>
        assert KnownPc(s.reloaders[i], s.built);
        KnownMove(s, SwappedPool(s, i), i, Swapped(s.server, s.reloaders[i].pool, s.hasCollector));
      case InstallPool(i) => KnownInstall(s, i);
      case CloseOld(i) => KnownMove(s, ClosedOld(s, i), i, Closing(s.reloaders[i].rest[1..]));
      case FinishReload(i) => KnownMove(s, At(s, i, Idle), i, Idle);
    }
  }

  lemma KnownBuild(s: State, creatable: set<string>)
    requires Known(s) && s.start.NotStarted?
    ensures Known(StartedBuild(s, creatable))
  {
    var t := StartedBuild(s, creatable);
    forall k: nat | k < |t.reloaders|
      ensures KnownPc(t.reloaders[k], t.built)
    {
      assert KnownPc(s.reloaders[k], s.built);
    }
  }

  lemma KnownStep(s: State, a: Action)
    requires Known(s) && Enabled(s, a)
    ensures Known(Apply(s, a))
  {
    if OfReload(a) {
      KnownReload(s, a);
    } else if a.StartBuild? {
      KnownBuild(s, a.creatable);
    } else {
      var t := Apply(s, a);
      assert t.built == s.built && t.collector == s.collector && t.reloaders == s.reloaders;
    }
  }

  lemma {:induction false} KnownRun(s: State, run: seq<Action>)
    requires Known(s) && Runs(s, run)
    ensures Known(After(s, run))
    decreases |run|
  {
    if run != [] {
      KnownStep(s, run[0]);
      KnownRun(Apply(s, run[0]), run[1..]);
    }
  }

  /** After a well-placed shutdown the collector still has a list, and every client in it is closed. */
  lemma CollectorLeftWithClosed(s: State, run: seq<Action>)
    requires Init(s) && Runs(s, run) && Finished(After(s, run)) && !After(s, run).stray
    ensures var t := After(s, run); t.collector != [] && forall c :: c in t.collector ==> c in t.closed
  {
    ShutdownClosesEverything(s, run);
    KnownRun(s, run);
    var t := After(s, run);
    forall c | c in t.collector
      ensures c in t.closed
    {
      assert c in Elems(t.built);
    }
  }
}
