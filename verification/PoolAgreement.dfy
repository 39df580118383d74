/** Server.clients against Collector.clients in orderly runs: they agree as long as no pool is swapped
    while another reload stands between its swap and its SetClients call. */
module PoolAgreement {
  import opened Prelude
  import opened Pools
  import opened PoolConservation

  ghost predicate WindowAt(s: State, i: nat)
  {
    i < |s.reloaders| && s.reloaders[i].Swapped?
  }

  ghost predicate WindowClosed(s: State)
  {
    forall i :: 0 <= i < |s.reloaders| ==> !s.reloaders[i].Swapped?
  }

  ghost predicate Orderly(s: State)
  {
    !s.stray && !s.overlapped
  }

  /** While goroutine i is in the window the collector still uses the retired pool. */
  ghost predicate Pending(s: State, i: nat)
    requires WindowAt(s, i)
  {
    var pc := s.reloaders[i];
    pc.hasCollector && s.collector == pc.retired && s.server == pc.pool
  }

  ghost predicate Agree(s: State)
  {
    && (WindowClosed(s) ==> s.server == s.collector)
    && forall i: nat :: WindowAt(s, i) ==> Pending(s, i)
  }

  ghost predicate BeforeStore(s: State)
  {
    !s.start.Stored? ==> WindowClosed(s) && (s.start.Created? ==> s.collector == s.start.pool)
  }

  ghost predicate SingleWindow(s: State)
  {
    forall i: nat, j: nat :: WindowAt(s, i) && WindowAt(s, j) ==> i == j
  }

  ghost predicate Agreement(s: State)
  {
    && (!s.stray ==> BeforeStore(s))
    && (!s.overlapped ==> SingleWindow(s))
    && (Orderly(s) && Open(s) ==> s.hasCollector && Agree(s))
  }

  /** A goroutine outside the window moves to another point outside it. */
  lemma AgreementMove(s: State, t: State, i: nat, pc: ReloadPc)
    requires Agreement(s) && i < |s.reloaders| && !s.reloaders[i].Swapped? && !pc.Swapped?
    requires t.reloaders == s.reloaders[i := pc]
    requires t.server == s.server && t.collector == s.collector && t.hasCollector == s.hasCollector
    requires t.start == s.start && t.stop == s.stop && t.stray == s.stray && t.overlapped == s.overlapped
    ensures Agreement(t)
  {
    assert forall j: nat :: WindowAt(t, j) <==> WindowAt(s, j);
    if WindowClosed(t) {
      forall j: nat | j < |s.reloaders| ensures !s.reloaders[j].Swapped? { assert !WindowAt(t, j); }
    } else {
      var j: nat :| j < |t.reloaders| && t.reloaders[j].Swapped?;
      assert WindowAt(t, j) && WindowAt(s, j);
    }
  }

  lemma AgreementSwap(s: State, i: nat)
    requires Agreement(s) && Enabled(s, SwapPool(i))
    ensures Agreement(SwappedPool(s, i))
  {
    var t := SwappedPool(s, i);
    assert forall j: nat :: WindowAt(t, j) ==> j == i || WindowAt(s, j);
    assert WindowAt(t, i);
    if !t.overlapped {
      assert WindowClosed(s);
    }
  }

  lemma AgreementInstall(s: State, i: nat)
    requires Agreement(s) && Enabled(s, InstallPool(i))
    ensures Agreement(InstalledPool(s, i))
  {
    var t := InstalledPool(s, i);
    assert WindowAt(s, i);
    assert forall j: nat :: WindowAt(t, j) ==> j != i && WindowAt(s, j);
    if !s.overlapped {
      forall j: nat | j < |t.reloaders| ensures !t.reloaders[j].Swapped? { assert !WindowAt(t, j); }
    }
  }

  lemma AgreementStart(s: State, a: Action)
    requires Agreement(s) && Enabled(s, a) && (a.StartBuild? || a.StartStore?)
    ensures Agreement(Apply(s, a))
  {
    var t := Apply(s, a);
    assert forall j: nat :: WindowAt(t, j) <==> WindowAt(s, j);
    assert WindowClosed(t) == WindowClosed(s);
  }

  lemma AgreementStop(s: State, t: State)
    requires Agreement(s) && t.reloaders == s.reloaders && t.collector == s.collector && t.start == s.start
    requires t.stray == s.stray && t.overlapped == s.overlapped && !t.stop.Running?
    ensures Agreement(t)
  {
    assert forall j: nat :: WindowAt(t, j) <==> WindowAt(s, j);
    assert WindowClosed(t) == WindowClosed(s);
  }

  lemma AgreementReload(s: State, a: Action)
    requires Agreement(s) && Enabled(s, a) && OfReload(a)
    ensures Agreement(Apply(s, a))
  {
    match a {
      case LoadConfig(i, names) => AgreementMove(s, Apply(s, a), i, Loaded(names, Elems(s.cfg)));
      case SwapConfig(i) => AgreementMove(s, Apply(s, a), i, SwappedConfig(s, i).reloaders[i]);
      case BuildClients(i, creatable) =>
        var pool := BuildPool(s.cfg, creatable, |s.built|);
        AgreementMove(s, Apply(s, a), i, if pool == [] then Idle else Built(pool));
      case SwapPool(i) => AgreementSwap(s, i);
      case InstallPool(i) => AgreementInstall(s, i);
      case CloseOld(i) => AgreementMove(s, Apply(s, a), i, Closing(s.reloaders[i].rest[1..]));
      case FinishReload(i) => AgreementMove(s, Apply(s, a), i, Idle);
    }
  }

  lemma AgreementStep(s: State, a: Action)
    requires Agreement(s) && Enabled(s, a)
    ensures Agreement(Apply(s, a))
  {
    match a {
      case StartBuild(_) => AgreementStart(s, a);
      case StartStore => AgreementStart(s, a);
      case StopSwap => AgreementStop(s, StoppedSwap(s));
      case StopClose => AgreementStop(s, StoppedClose(s));
      case StopFinish => AgreementStop(s, s.(stop := Stopped));
      case _ => AgreementReload(s, a);
    }
  }

  lemma {:induction false} AgreementRun(s: State, run: seq<Action>)
    requires Agreement(s) && Runs(s, run)
    ensures Agreement(After(s, run))
    decreases |run|
  {
    if run != [] {
      AgreementStep(s, run[0]);
      AgreementRun(Apply(s, run[0]), run[1..]);
    }
  }

  /** In every run whose pool swaps fall between start-up and shutdown and never into another
      reload's window: outside the window the two lists are equal, and inside it the collector
      keeps the list that is about to be retired. */
  lemma PoolsAgree(s: State, run: seq<Action>)
    requires Init(s) && Runs(s, run)
    ensures var t := After(s, run); Orderly(t) && Open(t) ==> t.hasCollector && Agree(t)
  {
    AgreementRun(s, run);
  }

  lemma {:induction false} HeldByMember(rs: seq<ReloadPc>, i: nat, c: Client)
    requires i < |rs|
    ensures HeldBy(rs[i], c) <= HeldByAll(rs, c)
  {
    if i > 0 {
      HeldByMember(rs[1..], i - 1, c);
    }
  }

  lemma OpenInState(t: State, c: Client)
    requires Conserved(t) && Orderly(t) && Open(t) && Agree(t) && c in t.collector
    ensures c !in t.closed
    ensures forall i :: 0 <= i < |t.reloaders| && t.reloaders[i].Closing? ==> c !in t.reloaders[i].rest
  {
    CountBuilt(t, c);
    assert Count(t.collector, c) >= 1;
    if !WindowClosed(t) {
      var j: nat :| j < |t.reloaders| && t.reloaders[j].Swapped?;
      assert WindowAt(t, j) && Pending(t, j);
      OnlyHolder(t, j, c);
    } else {
      forall i: nat | i < |t.reloaders| && t.reloaders[i].Closing?
        ensures c !in t.reloaders[i].rest
      {
        HeldByMember(t.reloaders, i, c);
      }
    }
  }

  /** No client the collector would use for its next cycle has been closed, nor is it waiting
      in some goroutine's list of clients to close. */
  lemma CollectorClientsAreOpen(s: State, run: seq<Action>, c: Client)
    requires Init(s) && Runs(s, run)
    requires var t := After(s, run); Orderly(t) && Open(t) && c in t.collector
    ensures var t := After(s, run);
      c !in t.closed && forall i :: 0 <= i < |t.reloaders| && t.reloaders[i].Closing? ==> c !in t.reloaders[i].rest
  {
    ConservedInit(s);
    ConservedRun(s, run);
    PoolsAgree(s, run);
    OpenInState(After(s, run), c);
  }

  /** A client one goroutine holds is in no other goroutine's list and not closed. */
  lemma OnlyHolder(s: State, j: nat, c: Client)
    requires Conserved(s) && j < |s.reloaders| && HeldBy(s.reloaders[j], c) >= 1
    ensures c !in s.closed && forall i :: 0 <= i < |s.reloaders| && i != j ==> HeldBy(s.reloaders[i], c) == 0
  {
    CountBuilt(s, c);
    HeldByMember(s.reloaders, j, c);
    forall i: nat | i < |s.reloaders| && i != j
      ensures HeldBy(s.reloaders[i], c) == 0
    {
      HeldByAllUpdate(s.reloaders, j, Idle, c);
      HeldByMember(s.reloaders[j := Idle], i, c);
    }
  }
}
