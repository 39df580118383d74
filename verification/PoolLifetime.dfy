/** Exactly when the collector's list holds a closed client, shutdown included, in every run without
    misplaced or overlapping pool swaps. */
module PoolLifetime {
  import opened Prelude
  import opened Pools
  import opened PoolConservation
  import opened PoolAgreement
  import PoolHandover

  /** Some client of the collector's list has been closed. */
  predicate UsesClosed(p: State)
  {
    exists c :: c in p.collector && c in p.closed
  }

  /** What shutdown has closed so far. */
  function ShutBy(shut: Pool, s: State, a: Action): Pool
    requires Enabled(s, a)
  {
    if a.StopClose? then shut + [s.stop.rest[0]] else shut
  }

  function ShutAfter(shut: Pool, s: State, run: seq<Action>): Pool
    requires Runs(s, run)
    decreases |run|
  {
    if run == [] then shut else ShutAfter(ShutBy(shut, s, run[0]), Apply(s, run[0]), run[1..])
  }

  predicate ShutdownHasClosed(run: seq<Action>)
  {
    exists k :: 0 <= k < |run| && run[k].StopClose?
  }

  lemma {:induction false} ShutIffClosed(shut: Pool, s: State, run: seq<Action>)
    requires Runs(s, run)
    ensures ShutAfter(shut, s, run) != [] <==> shut != [] || ShutdownHasClosed(run)
    decreases |run|
  {
    if run != [] {
      ShutIffClosed(ShutBy(shut, s, run[0]), Apply(s, run[0]), run[1..]);
      assert forall k :: 0 < k < |run| ==> run[k] == run[1..][k - 1];
      if ShutdownHasClosed(run[1..]) {
        var k :| 0 <= k < |run[1..]| && run[1..][k].StopClose?;
        assert run[k + 1].StopClose?;
      }
    }
  }

  function Rest(s: State): Pool
  {
    if s.stop.Stopping? then s.stop.rest else []
  }

  /** The list shutdown closes is the collector's, or will be once the reload in its window installs it. */
  ghost predicate Retiring(s: State, pool: Pool)
  {
    && (WindowClosed(s) ==> s.collector == pool)
    && forall i: nat :: WindowAt(s, i) ==> s.reloaders[i].hasCollector && s.reloaders[i].pool == pool &&
                                           s.collector == s.reloaders[i].retired
  }

  ghost predicate Unstored(s: State, shut: Pool)
  {
    && WindowClosed(s) && s.server == [] && shut == [] && Rest(s) == []
    && (s.start.Created? || s.collector == [])
  }

  ghost predicate Shutting(s: State, shut: Pool)
  {
    && (s.stop.Running? ==> shut == [])
    && (forall c :: c in shut ==> c in s.closed)
    && (!s.stray && !s.start.Stored? ==> Unstored(s, shut))
    && (Orderly(s) && s.start.Stored? && !s.stop.Running? ==> Retiring(s, shut + Rest(s)))
  }

  /** Outside the window, nothing shutdown depends on changes. */
  lemma ShuttingMove(s: State, t: State, shut: Pool, i: nat, pc: ReloadPc)
    requires Shutting(s, shut) && i < |s.reloaders| && t.reloaders == s.reloaders[i := pc]
    requires !s.reloaders[i].Swapped? && !pc.Swapped?
    requires t.server == s.server && t.collector == s.collector && t.start == s.start && t.stop == s.stop
    requires t.stray == s.stray && t.overlapped == s.overlapped
    requires forall c :: c in s.closed ==> c in t.closed
    ensures Shutting(t, shut)
  {
    assert forall j: nat :: WindowAt(t, j) <==> WindowAt(s, j);
    assert forall j: nat :: j < |s.reloaders| ==> t.reloaders[j].Swapped? == s.reloaders[j].Swapped?;
    assert WindowClosed(t) == WindowClosed(s);
  }

  lemma ShuttingInstall(s: State, shut: Pool, i: nat)
    requires Shutting(s, shut) && Agreement(s) && Enabled(s, InstallPool(i))
    ensures Shutting(InstalledPool(s, i), shut)
  {
    var t := InstalledPool(s, i);
    assert WindowAt(s, i);
    assert forall j: nat :: WindowAt(t, j) ==> j != i && WindowAt(s, j);
  }

  lemma ShuttingStart(s: State, shut: Pool, a: Action)
    requires Shutting(s, shut) && Enabled(s, a) && (a.StartBuild? || a.StartStore?)
    ensures Shutting(Apply(s, a), shut)
  {
    assert WindowClosed(Apply(s, a)) == WindowClosed(s);
  }

  lemma ShuttingSwap(s: State, shut: Pool)
    requires Shutting(s, shut) && Agreement(s) && Enabled(s, StopSwap)
    ensures Shutting(StoppedSwap(s), shut)
  {
    var t := StoppedSwap(s);
    assert forall j: nat :: WindowAt(t, j) <==> WindowAt(s, j);
    assert WindowClosed(t) == WindowClosed(s);
    assert shut + s.server == s.server;
    if Orderly(s) && s.start.Stored? {
      assert Agree(s);
      forall j: nat | WindowAt(t, j)
        ensures t.reloaders[j].hasCollector && t.reloaders[j].pool == s.server && t.collector == t.reloaders[j].retired
      {
        assert Pending(s, j);
      }
    }
  }

  lemma ShuttingClose(s: State, shut: Pool)
    requires Shutting(s, shut) && Enabled(s, StopClose)
    ensures Shutting(StoppedClose(s), shut + [s.stop.rest[0]])
  {
    var t := StoppedClose(s);
    assert shut + [s.stop.rest[0]] + t.stop.rest == shut + s.stop.rest;
    assert forall j: nat :: WindowAt(t, j) <==> WindowAt(s, j);
    assert WindowClosed(t) == WindowClosed(s);
  }

  lemma ShuttingFinish(s: State, shut: Pool)
    requires Shutting(s, shut) && Enabled(s, StopFinish)
    ensures Shutting(s.(stop := Stopped), shut)
  {
    var t := s.(stop := Stopped);
    assert Rest(t) == Rest(s);
    assert forall j: nat :: WindowAt(t, j) <==> WindowAt(s, j);
    assert WindowClosed(t) == WindowClosed(s);
  }

  lemma ShuttingPoolSwap(s: State, shut: Pool, i: nat)
    requires Shutting(s, shut) && Enabled(s, SwapPool(i))
    ensures Shutting(SwappedPool(s, i), shut)
  {
  }

  lemma ShuttingReload(s: State, shut: Pool, a: Action)
    requires Shutting(s, shut) && Agreement(s) && Enabled(s, a) && OfReload(a)
    ensures Shutting(Apply(s, a), shut)
  {
    match a {
      case LoadConfig(i, names) => ShuttingMove(s, LoadedConfig(s, i, names), shut, i, Loaded(names, Elems(s.cfg)));
      case SwapConfig(i) => ShuttingMove(s, SwappedConfig(s, i), shut, i, SwappedConfig(s, i).reloaders[i]);
      case BuildClients(i, creatable) =>
        var pool := BuildPool(s.cfg, creatable, |s.built|);
        ShuttingMove(s, BuiltClients(s, i, creatable), shut, i, if pool == [] then Idle else Built(pool));
      case SwapPool(i) => ShuttingPoolSwap(s, shut, i);
      case InstallPool(i) => ShuttingInstall(s, shut, i);
      case CloseOld(i) => ShuttingMove(s, ClosedOld(s, i), shut, i, Closing(s.reloaders[i].rest[1..]));
      case FinishReload(i) => ShuttingMove(s, At(s, i, Idle), shut, i, Idle);
    }
  }

  lemma ShuttingStep(s: State, shut: Pool, a: Action)
    requires Shutting(s, shut) && Agreement(s) && Enabled(s, a)
    ensures Shutting(Apply(s, a), ShutBy(shut, s, a))
  {
    if OfReload(a) {
      ShuttingReload(s, shut, a);
    } else if a.StartBuild? || a.StartStore? {
      ShuttingStart(s, shut, a);
    } else if a.StopSwap? {
      ShuttingSwap(s, shut);
    } else if a.StopClose? {
      ShuttingClose(s, shut);
    } else {
      ShuttingFinish(s, shut);
    }
  }

  /** Everything the proofs below know about a state of the pools. */
  ghost predicate Sound(s: State, shut: Pool)
  {
    Conserved(s) && Agreement(s) && Shutting(s, shut)
  }

  lemma SoundInit(s: State)
    requires Init(s)
    ensures Sound(s, [])
  {
    ConservedInit(s);
    assert WindowClosed(s);
  }

  lemma SoundStep(s: State, shut: Pool, a: Action)
    requires Sound(s, shut) && Enabled(s, a)
    ensures Sound(Apply(s, a), ShutBy(shut, s, a))
  {
    ConservedStep(s, a);
    AgreementStep(s, a);
    ShuttingStep(s, shut, a);
  }

  lemma {:induction false} SoundRun(s: State, shut: Pool, run: seq<Action>)
    requires Sound(s, shut) && Runs(s, run)
    ensures Sound(After(s, run), ShutAfter(shut, s, run))
    decreases |run|
  {
    if run != [] {
      SoundStep(s, shut, run[0]);
      SoundRun(Apply(s, run[0]), ShutBy(shut, s, run[0]), run[1..]);
    }
  }

  /** A client that the server, start-up, shutdown or a goroutine still holds has not been closed. */
  lemma HeldIsOpen(s: State, c: Client)
    requires Conserved(s)
    requires c in s.server || c in Rest(s) || (s.start.Created? && c in s.start.pool)
    ensures c !in s.closed
  {
    CountBuilt(s, c);
    assert c in s.server ==> Count(s.server, c) >= 1;
    assert c in Rest(s) ==> HeldByStop(s.stop, c) >= 1;
  }

  lemma OpenCollector(s: State)
    requires Conserved(s) && Agreement(s) && Orderly(s) && Open(s)
    ensures !UsesClosed(s)
  {
    forall c | c in s.collector
      ensures c !in s.closed
    {
      OpenInState(s, c);
    }
  }

  lemma ClosingCollector(s: State, shut: Pool)
    requires Sound(s, shut) && Orderly(s) && s.start.Stored? && !s.stop.Running?
    ensures UsesClosed(s) <==> WindowClosed(s) && shut != []
  {
    if WindowClosed(s) {
      forall c | c in Rest(s)
        ensures c !in s.closed
      {
        HeldIsOpen(s, c);
      }
      if shut != [] {
        assert shut[0] in shut && s.collector == shut + Rest(s) && shut[0] in s.collector;
      }
    } else {
      var j: nat :| j < |s.reloaders| && s.reloaders[j].Swapped?;
      assert WindowAt(s, j);
      forall c | c in s.collector
        ensures c !in s.closed
      {
        OnlyHolder(s, j, c);
      }
    }
  }

  lemma EarlyCollector(s: State, shut: Pool)
    requires Sound(s, shut) && Orderly(s) && !s.start.Stored?
    ensures !UsesClosed(s) && shut == []
  {
    forall c | c in s.collector
      ensures c !in s.closed
    {
      HeldIsOpen(s, c);
    }
  }

  lemma UsesClosedInState(s: State, shut: Pool)
    requires Sound(s, shut) && Orderly(s)
    ensures UsesClosed(s) <==> WindowClosed(s) && shut != []
  {
    if !s.start.Stored? {
      EarlyCollector(s, shut);
    } else if s.stop.Running? {
      OpenCollector(s);
    } else {
      ClosingCollector(s, shut);
    }
  }

  /** In every run without misplaced or overlapping swaps, at every moment of start-up, operation and
      shutdown: the collector's list holds a closed client if and only if shutdown has closed one and no
      reload still has to call SetClients. */
  lemma CollectorUsesClosedIff(s: State, run: seq<Action>)
    requires Init(s) && Runs(s, run) && Orderly(After(s, run))
    ensures UsesClosed(After(s, run)) <==> WindowClosed(After(s, run)) && ShutdownHasClosed(run)
  {
    SoundInit(s);
    SoundRun(s, [], run);
    ShutIffClosed([], s, run);
    UsesClosedInState(After(s, run), ShutAfter([], s, run));
  }

  /** Overlaps included: while the server is open and the last swap has been handed over, no client of the
      collector's list has been closed. */
  lemma HandedOverIsOpen(s: State, run: seq<Action>)
    requires Init(s) && Runs(s, run) && Open(After(s, run))
    requires PoolHandover.HandoverAfter(PoolHandover.Handover(None, true), s, run).done
    ensures !UsesClosed(After(s, run))
  {
    PoolHandover.PoolsAgreeIff(s, run);
    ConservedInit(s);
    ConservedRun(s, run);
    var t := After(s, run);
    forall c | c in t.collector
      ensures c !in t.closed
    {
      HeldIsOpen(t, c);
    }
  }
}
