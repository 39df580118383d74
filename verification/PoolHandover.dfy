/** Exactly when Server.clients and Collector.clients agree, in every run: when the last pool swap
    has been followed by its own SetClients call and by no other one. */
module PoolHandover {
  import opened Prelude
  import opened Pools
  import opened PoolConservation
  import opened PoolShutdown

  /** Who swapped last, and whether the SetClients call made last is the one of that very swap. Swaps
      made before there was a collector hand nothing over and do not count. */
  datatype Handover = Handover(last: Option<nat>, done: bool)

  function Next(h: Handover, s: State, a: Action): Handover
    requires Enabled(s, a)
  {
    match a
    case SwapPool(i) => if s.hasCollector then Handover(Some(i), false) else h
    case InstallPool(i) => if s.reloaders[i].hasCollector then Handover(h.last, h.last == Some(i)) else h
    case _ => h
  }

  function HandoverAfter(h: Handover, s: State, run: seq<Action>): Handover
    requires Runs(s, run)
    decreases |run|
  {
    if run == [] then h else HandoverAfter(Next(h, s, run[0]), Apply(s, run[0]), run[1..])
  }

  // ---------------------------------------------------------------- no two lists are the same

  predicate Holding(pc: ReloadPc)
  {
    pc.Built? || pc.Swapped?
  }

  /** New pools held by different goroutines differ, and none of them is the collector's yet. */
  predicate Separate(s: State)
  {
    && (forall i, j :: 0 <= i < j < |s.reloaders| && Holding(s.reloaders[i]) && Holding(s.reloaders[j]) ==>
          s.reloaders[i].pool != s.reloaders[j].pool)
    && (s.start.Created? || s.start.Stored? ==>
          forall i :: 0 <= i < |s.reloaders| && Holding(s.reloaders[i]) ==> s.reloaders[i].pool != s.collector)
  }

  /** A pool that was just built is not one that was known before. */
  lemma FreshPool(s: State, names: seq<string>, creatable: set<string>, pool: Pool)
    requires Numbered(s.built) && KnownPool(pool, s.built)
    ensures pool != BuildPool(names, creatable, |s.built|)
  {
    var c := pool[0];
    assert c in s.built;
    var k :| 0 <= k < |s.built| && s.built[k] == c;
    assert c.id == k < |s.built|;
  }

  /** Goroutine i keeps the pool it holds, lets go of it, or hands it to the collector. */
  lemma SeparateMove(s: State, t: State, i: nat, pc: ReloadPc)
    requires Separate(s) && i < |s.reloaders| && t.reloaders == s.reloaders[i := pc] && t.start == s.start
    requires Holding(pc) ==> Holding(s.reloaders[i]) && pc.pool == s.reloaders[i].pool
    requires t.collector == s.collector ||
      (Holding(s.reloaders[i]) && !Holding(pc) && t.collector == s.reloaders[i].pool)
    ensures Separate(t)
  {
  }

  lemma OthersDiffer(s: State, names: seq<string>, creatable: set<string>)
    requires Known(s) && Numbered(s.built)
    ensures var pool := BuildPool(names, creatable, |s.built|);
      forall j :: 0 <= j < |s.reloaders| && Holding(s.reloaders[j]) ==> s.reloaders[j].pool != pool
  {
    forall j | 0 <= j < |s.reloaders| && Holding(s.reloaders[j])
      ensures s.reloaders[j].pool != BuildPool(names, creatable, |s.built|)
    {
      assert KnownPc(s.reloaders[j], s.built);
      FreshPool(s, names, creatable, s.reloaders[j].pool);
    }
  }

  lemma SeparateAdd(s: State, t: State, i: nat, pool: Pool)
    requires Separate(s) && i < |s.reloaders| && t.reloaders == s.reloaders[i := Built(pool)]
    requires t.start == s.start && t.collector == s.collector
    requires s.start.Created? || s.start.Stored? ==> pool != s.collector
    requires forall j :: 0 <= j < |s.reloaders| && Holding(s.reloaders[j]) ==> s.reloaders[j].pool != pool
    ensures Separate(t)
  {
  }

  lemma SeparateBuild(s: State, i: nat, creatable: set<string>)
    requires Separate(s) && Known(s) && Numbered(s.built) && i < |s.reloaders|
    ensures Separate(BuiltClients(s, i, creatable))
  {
    var pool := BuildPool(s.cfg, creatable, |s.built|);
    if pool == [] {
      SeparateMove(s, BuiltClients(s, i, creatable), i, Idle);
    } else {
      OthersDiffer(s, s.cfg, creatable);
      if s.start.Created? || s.start.Stored? {
        FreshPool(s, s.cfg, creatable, s.collector);
      }
      SeparateAdd(s, BuiltClients(s, i, creatable), i, pool);
    }
  }

  lemma SeparateStart(s: State, creatable: set<string>)
    requires Separate(s) && Known(s) && Numbered(s.built)
    ensures Separate(StartedBuild(s, creatable))
  {
    OthersDiffer(s, s.startCfg, creatable);
  }

  lemma SeparateReload(s: State, a: Action)
    requires Separate(s) && Known(s) && Numbered(s.built) && Enabled(s, a) && OfReload(a)
    ensures Separate(Apply(s, a))
  {
    match a {
      case LoadConfig(i, names) => SeparateMove(s, LoadedConfig(s, i, names), i, Loaded(names, Elems(s.cfg)));
      case SwapConfig(i) => SeparateMove(s, SwappedConfig(s, i), i, SwappedConfig(s, i).reloaders[i]);
      case BuildClients(i, creatable) => SeparateBuild(s, i, creatable);
      case SwapPool(i) => SeparateMove(s, SwappedPool(s, i), i, Swapped(s.server, s.reloaders[i].pool, s.hasCollector));
      case InstallPool(i) => SeparateMove(s, InstalledPool(s, i), i, Closing(s.reloaders[i].retired));
      case CloseOld(i) => SeparateMove(s, ClosedOld(s, i), i, Closing(s.reloaders[i].rest[1..]));
      case FinishReload(i) => SeparateMove(s, At(s, i, Idle), i, Idle);
    }
  }

  lemma SeparateStep(s: State, a: Action)
    requires Separate(s) && Known(s) && Numbered(s.built) && Enabled(s, a)
    ensures Separate(Apply(s, a))
  {
    if OfReload(a) {
      SeparateReload(s, a);
    } else if a.StartBuild? {
      SeparateStart(s, a.creatable);
    } else {
      var t := Apply(s, a);
      assert t.reloaders == s.reloaders && t.collector == s.collector;
    }
  }

  // ---------------------------------------------------------------- who has handed over

  /** Goroutine i stands before a SetClients call that will change the collector. */
  predicate Late(s: State, i: nat)
  {
    i < |s.reloaders| && s.reloaders[i].Swapped? && s.reloaders[i].hasCollector
  }

  ghost predicate NoneLate(s: State)
  {
    forall i: nat :: !Late(s, i)
  }

  /** Before start-up has stored the collector there is nothing to hand over. */
  ghost predicate Early(s: State, h: Handover)
  {
    h == Handover(None, true) && !s.hasCollector && NoneLate(s) && (s.start.Created? ==> s.collector == s.start.pool)
  }

  /** The server holds the pool of the goroutine that swapped last, and no other one still to be
      handed over; past its window the two lists agree exactly when it has handed over last. */
  ghost predicate HeldBySwapper(s: State, h: Handover, i: nat)
  {
    && (if Late(s, i) then !h.done && s.server == s.reloaders[i].pool else s.server == s.collector <==> h.done)
    && forall j: nat :: Late(s, j) && j != i ==> s.reloaders[j].pool != s.server
  }

  ghost predicate Describes(s: State, h: Handover)
  {
    match h.last
    case None => h.done && s.server == s.collector && NoneLate(s)
    case Some(i) => HeldBySwapper(s, h, i)
  }

  ghost predicate Handed(s: State, h: Handover)
  {
    && (!s.start.Stored? ==> Early(s, h))
    && (Open(s) ==> s.hasCollector && Describes(s, h))
  }

  lemma HandedMove(s: State, t: State, h: Handover, i: nat, pc: ReloadPc)
    requires Handed(s, h) && i < |s.reloaders| && t.reloaders == s.reloaders[i := pc] && !Late(s, i)
    requires !(pc.Swapped? && pc.hasCollector)
    requires t.start == s.start && t.stop == s.stop && t.hasCollector == s.hasCollector && t.collector == s.collector
    requires t.server == s.server || !Open(s)
    ensures Handed(t, h)
  {
    assert forall j: nat :: Late(t, j) <==> Late(s, j);
  }

  lemma HandedSwap(s: State, h: Handover, i: nat)
    requires Handed(s, h) && Separate(s) && Enabled(s, SwapPool(i))
    ensures Handed(SwappedPool(s, i), Next(h, s, SwapPool(i)))
  {
    var t := SwappedPool(s, i);
    if !s.hasCollector {
      HandedMove(s, t, h, i, Swapped(s.server, s.reloaders[i].pool, false));
    } else {
      assert forall j: nat :: Late(t, j) && j != i ==> Late(s, j) && Holding(s.reloaders[j]);
    }
  }

  lemma HandedInstall(s: State, h: Handover, i: nat)
    requires Handed(s, h) && Separate(s) && Enabled(s, InstallPool(i))
    ensures Handed(InstalledPool(s, i), Next(h, s, InstallPool(i)))
  {
    var t := InstalledPool(s, i);
    if Late(s, i) {
      assert forall j: nat :: Late(t, j) <==> j != i && Late(s, j);
    } else {
      HandedMove(s, t, h, i, Closing(s.reloaders[i].retired));
    }
  }

  lemma HandedStart(s: State, h: Handover, a: Action)
    requires Handed(s, h) && Enabled(s, a) && (a.StartBuild? || a.StartStore?)
    ensures Handed(Apply(s, a), h)
  {
    assert forall j: nat :: Late(Apply(s, a), j) <==> Late(s, j);
  }

  lemma HandedStop(s: State, t: State, h: Handover)
    requires Handed(s, h) && t.reloaders == s.reloaders && t.start == s.start && t.collector == s.collector
    requires !t.stop.Running? && (t.hasCollector ==> s.hasCollector)
    ensures Handed(t, h)
  {
    assert forall j: nat :: Late(t, j) <==> Late(s, j);
  }

  lemma HandedReload(s: State, h: Handover, a: Action)
    requires Handed(s, h) && Separate(s) && Enabled(s, a) && OfReload(a)
    ensures Handed(Apply(s, a), Next(h, s, a))
  {
    match a {
      case LoadConfig(i, names) => HandedMove(s, LoadedConfig(s, i, names), h, i, Loaded(names, Elems(s.cfg)));
      case SwapConfig(i) => HandedMove(s, SwappedConfig(s, i), h, i, SwappedConfig(s, i).reloaders[i]);
      case BuildClients(i, creatable) =>
        var pool := BuildPool(s.cfg, creatable, |s.built|);
        HandedMove(s, BuiltClients(s, i, creatable), h, i, if pool == [] then Idle else Built(pool));
      case SwapPool(i) => HandedSwap(s, h, i);
      case InstallPool(i) => HandedInstall(s, h, i);
      case CloseOld(i) => HandedMove(s, ClosedOld(s, i), h, i, Closing(s.reloaders[i].rest[1..]));
      case FinishReload(i) => HandedMove(s, At(s, i, Idle), h, i, Idle);
    }
  }

  lemma HandedStep(s: State, h: Handover, a: Action)
    requires Handed(s, h) && Separate(s) && Enabled(s, a)
    ensures Handed(Apply(s, a), Next(h, s, a))
  {
    if OfReload(a) {
      HandedReload(s, h, a);
    } else if a.StartBuild? || a.StartStore? {
      HandedStart(s, h, a);
    } else {
      HandedStop(s, Apply(s, a), h);
    }
  }

  lemma {:induction false} HandedRun(s: State, h: Handover, run: seq<Action>)
    requires Handed(s, h) && Separate(s) && Known(s) && Conserved(s) && Runs(s, run)
    ensures Handed(After(s, run), HandoverAfter(h, s, run)) && Separate(After(s, run))
    decreases |run|
  {
    if run != [] {
      HandedStep(s, h, run[0]);
      SeparateStep(s, run[0]);
      KnownStep(s, run[0]);
      ConservedStep(s, run[0]);
      HandedRun(Apply(s, run[0]), Next(h, s, run[0]), run[1..]);
    }
  }

  /** In every run, overlapping reloads and reloads during start-up included: while the server is open the
      two lists agree if and only if the last swap has been followed by its own SetClients call and by no
      other one. */
  lemma PoolsAgreeIff(s: State, run: seq<Action>)
    requires Init(s) && Runs(s, run) && Open(After(s, run))
    ensures var t := After(s, run); t.server == t.collector <==> HandoverAfter(Handover(None, true), s, run).done
  {
    ConservedInit(s);
    HandedRun(s, Handover(None, true), run);
    var t, h := After(s, run), HandoverAfter(Handover(None, true), s, run);
    if h.last.Some? && Late(t, h.last.value) {
      assert Holding(t.reloaders[h.last.value]);
    }
  }
}
