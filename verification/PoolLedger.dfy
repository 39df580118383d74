/** Exactly when the collector's list holds a closed client, in every run: overlapping reloads, reloads during
    start-up and the whole of shutdown included. */
module PoolLedger {
  import opened Prelude
  import opened Pools
  import opened PoolConservation
  import opened PoolAgreement
  import opened PoolShutdown
  import opened PoolHandover
  import opened PoolLifetime

  /** Whoever takes the server's list also closes its clients. */
  datatype Taker = Reload(i: nat) | Shutdown

  /** What has become of a list since it was built: still to be taken out of the server, taken out with
      every client open, or with some client closed. */
  datatype Fate = InUse | TakenBy(who: Taker) | Touched

  type Ledger = map<Pool, Fate>

  function Opened(m: Ledger, pool: Pool): Ledger
  {
    if pool == [] then m else m[pool := InUse]
  }

  function Taken(m: Ledger, pool: Pool, who: Taker): Ledger
  {
    if pool in m then m[pool := TakenBy(who)] else m
  }

  function Touch(m: Ledger, who: Taker): Ledger
  {
    map pool | pool in m :: if m[pool] == TakenBy(who) then Touched else m[pool]
  }

  function Next(m: Ledger, s: State, a: Action): Ledger
    requires Enabled(s, a)
  {
    match a
    case BuildClients(_, creatable) => Opened(m, BuildPool(s.cfg, creatable, |s.built|))
    case StartBuild(creatable) => Opened(m, BuildPool(s.startCfg, creatable, |s.built|))
    case SwapPool(i) => Taken(m, s.server, Reload(i))
    case StopSwap => Taken(m, s.server, Shutdown)
    case CloseOld(i) => Touch(m, Reload(i))
    case StopClose => Touch(m, Shutdown)
    case _ => m
  }

  function LedgerAfter(m: Ledger, s: State, run: seq<Action>): Ledger
    requires Runs(s, run)
    decreases |run|
  {
    if run == [] then m else LedgerAfter(Next(m, s, run[0]), Apply(s, run[0]), run[1..])
  }

  // ---------------------------------------------------------------- the ledger is right

  predicate BuiltAt(s: State, i: nat, pool: Pool)
  {
    i < |s.reloaders| && s.reloaders[i] == Built(pool)
  }

  /** A list nobody has taken yet: in the server, not there yet, or overwritten there by start-up. */
  ghost predicate Untaken(s: State, pool: Pool)
  {
    || s.server == pool || s.start == Created(pool) || (forall c :: c in pool ==> c in s.lost)
    || exists i: nat :: BuiltAt(s, i, pool)
  }

  /** The taker still has all of the list before it. */
  predicate Untouched(s: State, pool: Pool, who: Taker)
  {
    match who
    case Shutdown => s.stop == Stopping(pool)
    case Reload(i) =>
      && i < |s.reloaders|
      && (s.reloaders[i] == Closing(pool) || (s.reloaders[i].Swapped? && s.reloaders[i].retired == pool))
  }

  predicate SomeClosed(s: State, pool: Pool)
  {
    exists c :: c in pool && c in s.closed
  }

  ghost predicate Entered(s: State, m: Ledger, pool: Pool)
    requires pool in m
  {
    && KnownPool(pool, s.built)
    && match m[pool]
       case InUse => Untaken(s, pool)
       case TakenBy(who) => Untouched(s, pool, who)
       case Touched => SomeClosed(s, pool)
  }

  /** A list that is used or may come to be used is in the ledger. */
  predicate Listed(m: Ledger, pool: Pool)
  {
    pool != [] ==> pool in m
  }

  predicate ListedPc(m: Ledger, pc: ReloadPc)
  {
    pc.Built? || pc.Swapped? ==> Listed(m, pc.pool)
  }

  predicate Complete(s: State, m: Ledger)
  {
    && Listed(m, s.server) && Listed(m, s.collector) && (s.start.Created? ==> Listed(m, s.start.pool))
    && forall i :: 0 <= i < |s.reloaders| ==> ListedPc(m, s.reloaders[i])
  }

  ghost predicate Right(s: State, m: Ledger)
  {
    Complete(s, m) && forall pool :: pool in m ==> Entered(s, m, pool)
  }

  /** Goroutine i holds no client before the step and none after it. */
  lemma RightMove(s: State, t: State, m: Ledger, i: nat, pc: ReloadPc)
    requires Right(s, m) && i < |s.reloaders| && t.reloaders == s.reloaders[i := pc]
    requires var was := s.reloaders[i]; was.Idle? || was.Loaded? || was.Rebuild? || was == Closing([])
    requires pc.Idle? || pc.Loaded? || pc.Rebuild?
    requires SameElsewhere(s, t) && t.built == s.built && t.closed == s.closed
    ensures Right(t, m)
  {
    assert forall j: nat, pool :: BuiltAt(s, j, pool) ==> BuiltAt(t, j, pool);
    forall pool | pool in m
      ensures Entered(t, m, pool)
    {
      assert Entered(s, m, pool);
    }
  }

  lemma RightBuild(s: State, m: Ledger, i: nat, creatable: set<string>)
    requires Right(s, m) && Enabled(s, BuildClients(i, creatable))
    ensures Right(BuiltClients(s, i, creatable), Next(m, s, BuildClients(i, creatable)))
  {
    var pool, t := BuildPool(s.cfg, creatable, |s.built|), BuiltClients(s, i, creatable);
    if pool == [] {
      RightMove(s, t, m, i, Idle);
    } else {
      RightAdd(s, m, i, pool);
    }
  }

  lemma RightAdd(s: State, m: Ledger, i: nat, pool: Pool)
    requires Right(s, m) && i < |s.reloaders| && s.reloaders[i].Rebuild? && pool != []
    ensures Right(At(s, i, Built(pool)).(built := s.built + pool), m[pool := InUse])
  {
    var t, n := At(s, i, Built(pool)).(built := s.built + pool), m[pool := InUse];
    assert BuiltAt(t, i, pool);
    assert forall j: nat, other :: BuiltAt(s, j, other) ==> BuiltAt(t, j, other);
    forall other | other in n
      ensures Entered(t, n, other)
    {
      assert other != pool ==> Entered(s, m, other);
    }
  }

  lemma RightSwap(s: State, m: Ledger, i: nat)
    requires Right(s, m) && Enabled(s, SwapPool(i))
    ensures Right(SwappedPool(s, i), Taken(m, s.server, Reload(i)))
  {
    var t, n := SwappedPool(s, i), Taken(m, s.server, Reload(i));
    assert ListedPc(m, s.reloaders[i]);
    assert forall j: nat, pool :: BuiltAt(s, j, pool) ==> BuiltAt(t, j, pool) || pool == t.server;
    forall pool | pool in n
      ensures Entered(t, n, pool)
    {
      assert Entered(s, m, pool);
    }
  }

  lemma EnteredInstall(s: State, m: Ledger, i: nat, pool: Pool)
    requires pool in m && Entered(s, m, pool) && Enabled(s, InstallPool(i))
    ensures Entered(InstalledPool(s, i), m, pool)
  {
    var t := InstalledPool(s, i);
    assert t.built == s.built && t.closed == s.closed;
    if m[pool].InUse? && exists j: nat :: BuiltAt(s, j, pool) {
      var j: nat :| BuiltAt(s, j, pool);
      assert BuiltAt(t, j, pool);
    }
  }

  lemma RightInstall(s: State, m: Ledger, i: nat)
    requires Right(s, m) && Enabled(s, InstallPool(i))
    ensures Right(InstalledPool(s, i), m)
  {
    assert ListedPc(m, s.reloaders[i]);
    assert Complete(InstalledPool(s, i), m);
    forall pool | pool in m
      ensures Entered(InstalledPool(s, i), m, pool)
    {
      EnteredInstall(s, m, i, pool);
    }
  }

  lemma RightClose(s: State, m: Ledger, i: nat)
    requires Right(s, m) && Enabled(s, CloseOld(i))
    ensures Right(ClosedOld(s, i), Touch(m, Reload(i)))
  {
    var t, n := ClosedOld(s, i), Touch(m, Reload(i));
    assert forall j: nat, pool :: BuiltAt(s, j, pool) ==> BuiltAt(t, j, pool);
    assert s.reloaders[i].rest[0] in t.closed;
    forall pool | pool in n
      ensures Entered(t, n, pool)
    {
      assert Entered(s, m, pool);
    }
  }

  lemma EnteredCreate(s: State, m: Ledger, creatable: set<string>, pool: Pool)
    requires pool in m && Entered(s, m, pool) && s.start.NotStarted?
    ensures Entered(StartedBuild(s, creatable), m, pool)
  {
    var t := StartedBuild(s, creatable);
    assert t.reloaders == s.reloaders && t.closed == s.closed && t.server == s.server && t.lost == s.lost;
    if m[pool].InUse? && exists j: nat :: BuiltAt(s, j, pool) {
      var j: nat :| BuiltAt(s, j, pool);
      assert BuiltAt(t, j, pool);
    }
  }

  lemma CompleteCreate(s: State, m: Ledger, creatable: set<string>)
    requires Complete(s, m) && s.start.NotStarted?
    ensures Complete(StartedBuild(s, creatable), Next(m, s, StartBuild(creatable)))
  {
    assert StartedBuild(s, creatable).reloaders == s.reloaders;
  }

  lemma RightCreate(s: State, m: Ledger, creatable: set<string>)
    requires Right(s, m) && s.start.NotStarted?
    ensures Right(StartedBuild(s, creatable), Next(m, s, StartBuild(creatable)))
  {
    var t, n := StartedBuild(s, creatable), Next(m, s, StartBuild(creatable));
    CompleteCreate(s, m, creatable);
    forall pool | pool in n
      ensures Entered(t, n, pool)
    {
      if pool in m {
        EnteredCreate(s, m, creatable, pool);
      }
    }
  }

  lemma RightStore(s: State, m: Ledger)
    requires Right(s, m) && s.start.Created?
    ensures Right(StartedStore(s), m)
  {
    var t := StartedStore(s);
    assert t.reloaders == s.reloaders && Complete(t, m);
    assert forall j: nat, pool :: BuiltAt(s, j, pool) ==> BuiltAt(t, j, pool);
    forall pool | pool in m
      ensures Entered(t, m, pool)
    {
      assert Entered(s, m, pool);
    }
  }

  lemma RightStop(s: State, m: Ledger, a: Action)
    requires Right(s, m) && Enabled(s, a) && (a.StopSwap? || a.StopClose? || a.StopFinish?)
    ensures Right(Apply(s, a), Next(m, s, a))
  {
    var t, n := Apply(s, a), Next(m, s, a);
    assert forall j: nat, pool :: BuiltAt(s, j, pool) ==> BuiltAt(t, j, pool);
    if a.StopClose? {
      assert s.stop.rest[0] in t.closed;
    }
    forall pool | pool in n
      ensures Entered(t, n, pool)
    {
      assert Entered(s, m, pool);
    }
  }

  lemma RightReload(s: State, m: Ledger, a: Action)
    requires Right(s, m) && Enabled(s, a) && OfReload(a)
    ensures Right(Apply(s, a), Next(m, s, a))
  {
    match a {
      case LoadConfig(i, names) => RightMove(s, LoadedConfig(s, i, names), m, i, Loaded(names, Elems(s.cfg)));
      case SwapConfig(i) => RightMove(s, SwappedConfig(s, i), m, i, SwappedConfig(s, i).reloaders[i]);
      case BuildClients(i, creatable) => RightBuild(s, m, i, creatable);
      case SwapPool(i) => RightSwap(s, m, i);
      case InstallPool(i) => RightInstall(s, m, i);
      case CloseOld(i) => RightClose(s, m, i);
      case FinishReload(i) => RightMove(s, At(s, i, Idle), m, i, Idle);
    }
  }

  lemma RightStep(s: State, m: Ledger, a: Action)
    requires Right(s, m) && Enabled(s, a)
    ensures Right(Apply(s, a), Next(m, s, a))
  {
    if OfReload(a) {
      RightReload(s, m, a);
    } else if a.StartBuild? {
      RightCreate(s, m, a.creatable);
    } else if a.StartStore? {
      RightStore(s, m);
    } else {
      RightStop(s, m, a);
    }
  }

  lemma {:induction false} RightRun(s: State, m: Ledger, run: seq<Action>)
    requires Right(s, m) && Conserved(s) && Runs(s, run)
    ensures Right(After(s, run), LedgerAfter(m, s, run)) && Conserved(After(s, run))
    decreases |run|
  {
    if run != [] {
      RightStep(s, m, run[0]);
      ConservedStep(s, run[0]);
      RightRun(Apply(s, run[0]), Next(m, s, run[0]), run[1..]);
    }
  }

  // ---------------------------------------------------------------- which lists have a closed client

  lemma UntakenIsOpen(s: State, pool: Pool)
    requires Conserved(s) && Untaken(s, pool)
    ensures !SomeClosed(s, pool)
  {
    forall c | c in pool
      ensures c !in s.closed
    {
      CountBuilt(s, c);
      assert c in s.lost ==> Count(s.lost, c) >= 1;
      assert Count(pool, c) >= 1;
      if i: nat :| BuiltAt(s, i, pool) {
        HeldByMember(s.reloaders, i, c);
      }
    }
  }

  lemma UntouchedIsOpen(s: State, pool: Pool, who: Taker)
    requires Conserved(s) && Untouched(s, pool, who)
    ensures !SomeClosed(s, pool) && (pool != [] ==> pool != s.server)
  {
    forall c | c in pool
      ensures c !in s.closed && pool != s.server
    {
      CountBuilt(s, c);
      assert Count(pool, c) >= 1;
      if who.Reload? {
        HeldByMember(s.reloaders, who.i, c);
      }
    }
    assert pool != [] ==> pool[0] in pool;
  }

  lemma FateTells(s: State, m: Ledger, pool: Pool)
    requires Right(s, m) && Conserved(s) && pool in m
    ensures SomeClosed(s, pool) <==> m[pool] == Touched
    ensures pool == s.server ==> m[pool] == InUse
  {
    assert Entered(s, m, pool);
    match m[pool] {
      case InUse => UntakenIsOpen(s, pool);
      case TakenBy(who) => UntouchedIsOpen(s, pool, who);
      case Touched =>
        if pool == s.server {
          UntakenIsOpen(s, pool);
        }
    }
  }

  /** A swap by goroutine i takes the server's list for its own closing loop, the stop for shutdown's. */
  predicate Takes(a: Action, who: Taker)
  {
    match who
    case Reload(i) => a == SwapPool(i)
    case Shutdown => a.StopSwap?
  }

  predicate Closes(a: Action, who: Taker)
  {
    match who
    case Reload(i) => a == CloseOld(i)
    case Shutdown => a.StopClose?
  }

  predicate ClosesIn(run: seq<Action>, who: Taker)
  {
    exists k :: 0 <= k < |run| && Closes(run[k], who)
  }

  /** Somewhere in the run this list is taken out of the server, and whoever took it closes a client later. */
  ghost predicate TakenAndClosed(pool: Pool, s: State, run: seq<Action>)
    requires Runs(s, run)
    decreases |run|
  {
    run != [] &&
    ((s.server == pool && exists who :: Takes(run[0], who) && ClosesIn(run[1..], who)) ||
     TakenAndClosed(pool, Apply(s, run[0]), run[1..]))
  }

  lemma ClosesInTail(run: seq<Action>, who: Taker)
    requires run != []
    ensures ClosesIn(run, who) <==> Closes(run[0], who) || ClosesIn(run[1..], who)
  {
    if k :| 0 <= k < |run[1..]| && Closes(run[1..][k], who) {
      assert Closes(run[k + 1], who);
    }
    if k :| 0 < k < |run| && Closes(run[k], who) {
      assert Closes(run[1..][k - 1], who);
    }
  }

  lemma FreshList(s: State, m: Ledger, names: seq<string>, creatable: set<string>)
    requires Right(s, m) && Conserved(s)
    ensures BuildPool(names, creatable, |s.built|) !in m
  {
    var pool := BuildPool(names, creatable, |s.built|);
    if pool in m {
      assert Entered(s, m, pool);
      FreshPool(s, names, creatable, pool);
    }
  }

  /** The list in the server is taken. */
  lemma TakenStep(s: State, m: Ledger, a: Action, who: Taker)
    requires Right(s, m) && Conserved(s) && Enabled(s, a) && Takes(a, who) && s.server != []
    ensures s.server in m && m[s.server].InUse? && Next(m, s, a) == m[s.server := TakenBy(who)]
  {
    FateTells(s, m, s.server);
  }

  predicate TouchedIn(m: Ledger, pool: Pool)
  {
    pool in m && m[pool].Touched?
  }

  predicate TakenIn(m: Ledger, pool: Pool, who: Taker)
  {
    pool in m && m[pool] == TakenBy(who)
  }

  /** Any other step that concerns the list is a close by its taker. */
  lemma OtherStep(s: State, m: Ledger, a: Action, pool: Pool, who: Taker)
    requires Right(s, m) && Conserved(s) && Enabled(s, a)
    requires s.server != pool || !(a.SwapPool? || a.StopSwap?)
    ensures TakenIn(Next(m, s, a), pool, who) <==> TakenIn(m, pool, who) && !Closes(a, who)
    ensures TakenIn(m, pool, who) && Closes(a, who) ==> TouchedIn(Next(m, s, a), pool)
    ensures TouchedIn(m, pool) ==> TouchedIn(Next(m, s, a), pool)
    ensures TouchedIn(Next(m, s, a), pool) && !TouchedIn(m, pool) ==>
      exists w :: TakenIn(m, pool, w) && Closes(a, w)
  {
    if a.BuildClients? {
      FreshList(s, m, s.cfg, a.creatable);
    } else if a.StartBuild? {
      FreshList(s, m, s.startCfg, a.creatable);
    } else if a.CloseOld? && TakenIn(m, pool, Reload(a.i)) {
      assert Closes(a, Reload(a.i));
    } else if a.StopClose? && TakenIn(m, pool, Shutdown) {
      assert Closes(a, Shutdown);
    }
  }

  ghost predicate WillClose(pool: Pool, m: Ledger, run: seq<Action>)
  {
    TouchedIn(m, pool) || exists who :: TakenIn(m, pool, who) && ClosesIn(run, who)
  }

  lemma OtherWillClose(pool: Pool, s: State, m: Ledger, run: seq<Action>)
    requires Right(s, m) && Conserved(s) && run != [] && Enabled(s, run[0])
    requires s.server != pool || !(run[0].SwapPool? || run[0].StopSwap?)
    ensures WillClose(pool, m, run) <==> WillClose(pool, Next(m, s, run[0]), run[1..])
  {
    var a, n := run[0], Next(m, s, run[0]);
    forall who
      ensures TakenIn(n, pool, who) <==> TakenIn(m, pool, who) && !Closes(a, who)
      ensures TakenIn(m, pool, who) && Closes(a, who) ==> TouchedIn(n, pool)
      ensures ClosesIn(run, who) <==> Closes(a, who) || ClosesIn(run[1..], who)
    {
      OtherStep(s, m, a, pool, who);
      ClosesInTail(run, who);
    }
    OtherStep(s, m, a, pool, Shutdown);
  }

  lemma WillCloseStep(pool: Pool, s: State, m: Ledger, run: seq<Action>)
    requires Right(s, m) && Conserved(s) && Runs(s, run) && run != [] && pool != []
    ensures WillClose(pool, m, run) || TakenAndClosed(pool, s, run)
      <==> WillClose(pool, Next(m, s, run[0]), run[1..]) || TakenAndClosed(pool, Apply(s, run[0]), run[1..])
  {
    var a, n := run[0], Next(m, s, run[0]);
    if s.server == pool && (a.SwapPool? || a.StopSwap?) {
      var who := if a.SwapPool? then Reload(a.i) else Shutdown;
      TakenStep(s, m, a, who);
      assert Takes(a, who) && forall w :: Takes(a, w) ==> w == who;
      assert !WillClose(pool, m, run);
      assert WillClose(pool, n, run[1..]) <==> ClosesIn(run[1..], who) by {
        assert TakenIn(n, pool, who);
      }
    } else {
      OtherWillClose(pool, s, m, run);
      assert s.server == pool ==> forall who :: !Takes(a, who);
    }
  }

  lemma {:induction false} LedgerTells(pool: Pool, s: State, m: Ledger, run: seq<Action>)
    requires Right(s, m) && Conserved(s) && Runs(s, run) && pool != []
    ensures TouchedIn(LedgerAfter(m, s, run), pool) <==> WillClose(pool, m, run) || TakenAndClosed(pool, s, run)
    decreases |run|
  {
    if run != [] {
      WillCloseStep(pool, s, m, run);
      RightStep(s, m, run[0]);
      ConservedStep(s, run[0]);
      LedgerTells(pool, Apply(s, run[0]), Next(m, s, run[0]), run[1..]);
    }
  }

  /** In every run and at every moment of it: the collector's list holds a closed client if and only if that
      list was taken out of the server, by a reload or by shutdown, and whoever took it has closed a client since. */
  lemma UsesClosedIffTaken(s: State, run: seq<Action>)
    requires Init(s) && Runs(s, run)
    ensures var t := After(s, run);
      UsesClosed(t) <==> t.collector != [] && TakenAndClosed(t.collector, s, run)
  {
    ConservedInit(s);
    RightRun(s, map[], run);
    var t, m := After(s, run), LedgerAfter(map[], s, run);
    if t.collector != [] {
      FateTells(t, m, t.collector);
      LedgerTells(t.collector, s, map[], run);
    }
  }
}
