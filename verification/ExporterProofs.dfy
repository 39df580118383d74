/** What holds in every run of the exporter, however its goroutines interleave. */
module ExporterProofs {
  import opened Prelude
  import opened Snapshots
  import opened Push
  import opened Cycle
  import opened Exporter
  import Pools

  // ---------------------------------------------------------------- snapshots

  /** The seed, or the snapshot of exactly one result per client of one list that was installed. */
  ghost predicate Genuine(v: Version, installed: set<Pools.Pool>)
  {
    IsSeed(v) || (v.pool in installed && |v.replies| == |v.pool| && IsSnapshotOf(v.snap, ResultsFor(v.pool, v.replies)))
  }

  ghost predicate Publications(s: State)
  {
    && s.versions != []
    && (forall k :: 0 <= k < |s.versions| ==> Genuine(s.versions[k], s.pools.installed))
    && (s.loop.Collecting? ==> s.loop.pool in s.pools.installed)
    && (s.pools.start.Created? || s.pools.start.Stored? ==> s.pools.collector in s.pools.installed)
  }

  lemma InstalledStep(p: Pools.State, a: Pools.Action)
    requires Pools.Enabled(p, a)
    requires p.start.Created? || p.start.Stored? ==> p.collector in p.installed
    ensures var q := Pools.Apply(p, a);
      p.installed <= q.installed && (q.start.Created? || q.start.Stored? ==> q.collector in q.installed)
  {
    if Pools.OfOwn(a) {
      Pools.OwnStep(p, a);
    } else if a.InstallPool? {
      assert Pools.Apply(p, a) == Pools.InstalledPool(p, a.i);
    } else if a.StartBuild? {
      assert Pools.Apply(p, a) == Pools.StartedBuild(p, a.creatable);
    }
  }

  lemma PublicationsStep(s: State, a: Action)
    requires Publications(s) && Enabled(s, a)
    ensures Publications(Apply(s, a))
  {
    match a {
      case PoolStep(p) => InstalledStep(s.pools, p);
      case Publish(snap) =>
        assert Genuine(Version(s.loop.pool, Values(s.loop.replies), snap), s.pools.installed);
      case _ =>
    }
  }

  // ---------------------------------------------------------------- readers

  predicate Sorted(log: seq<nat>)
  {
    forall i, j :: 0 <= i < j < |log| ==> log[i] <= log[j]
  }

  predicate Past(log: seq<nat>, versions: nat)
  {
    forall i :: 0 <= i < |log| ==> log[i] < versions
  }

  predicate Readers(s: State)
  {
    forall r :: 0 <= r < |s.loads| ==> Sorted(s.loads[r]) && Past(s.loads[r], |s.versions|)
  }

  lemma ReadersStep(s: State, a: Action)
    requires Readers(s) && Enabled(s, a)
    ensures Readers(Apply(s, a))
  {
    if a.Load? {
      var log := s.loads[a.r] + [|s.versions| - 1];
      assert Sorted(log) && Past(log, |s.versions|);
    } else {
      assert Apply(s, a).loads == s.loads && |Apply(s, a).versions| >= |s.versions|;
    }
  }

  // ---------------------------------------------------------------- instruments

  /** One instrument per registered name; a hook works on the current snapshot, and once it has
      succeeded every name of that snapshot is registered. */
  predicate Instruments(s: State)
  {
    && s.versions != []
    && NoDup(s.instruments) && Elems(s.instruments) == s.registered
    && (s.loop.Hooked? ==> s.loop.names == Latest(s).snap.names)
    && (s.covered ==> Elems(Latest(s).snap.names) <= s.registered)
  }

  lemma EnsuredKeeps(s: State, names: seq<string>, accepted: set<string>)
    requires NoDup(s.instruments) && Elems(s.instruments) == s.registered
    ensures var t := Ensured(s, names, accepted);
      && NoDup(t.instruments) && Elems(t.instruments) == t.registered
      && s.registered <= t.registered && s.instruments <= t.instruments
  {
    var created := Ensure(names, s.registered, accepted).created;
    assert Elems(s.instruments + created) == Elems(s.instruments) + Elems(created);
    forall i, j | 0 <= i < |s.instruments| && 0 <= j < |created|
      ensures s.instruments[i] != created[j]
    {
      assert s.instruments[i] in Elems(s.instruments) && created[j] in Elems(created);
    }
  }

  lemma InstrumentsStep(s: State, a: Action)
    requires Instruments(s) && Enabled(s, a)
    ensures Instruments(Apply(s, a))
  {
    match a {
      case RunHook(accepted) => EnsuredKeeps(s, s.loop.names, accepted);
      case Register(j, accepted) => EnsuredKeeps(s, s.registrars[j].names, accepted);
      case _ =>
    }
  }

  // ---------------------------------------------------------------- every run

  ghost predicate Sound(s: State)
  {
    Publications(s) && Readers(s) && Instruments(s)
  }

  lemma SoundInit(s: State)
    requires Init(s)
    ensures Sound(s)
  {
  }

  lemma SoundStep(s: State, a: Action)
    requires Sound(s) && Enabled(s, a)
    ensures Sound(Apply(s, a))
  {
    PublicationsStep(s, a);
    ReadersStep(s, a);
    InstrumentsStep(s, a);
  }

  lemma {:induction false} SoundRun(s: State, run: seq<Action>)
    requires Sound(s) && Runs(s, run)
    ensures Sound(After(s, run))
    decreases |run|
  {
    if run != [] {
      SoundStep(s, run[0]);
      SoundRun(Apply(s, run[0]), run[1..]);
    }
  }

  /** Every snapshot the store ever holds is the seed or belongs to one client list as a whole, and
      no reader ever goes back to an earlier one. */
  lemma SnapshotsAreWhole(s: State, run: seq<Action>)
    requires Init(s) && Runs(s, run)
    ensures var t := After(s, run);
      forall r, k :: 0 <= r < |t.loads| && 0 <= k < |t.loads[r]| ==>
        t.loads[r][k] < |t.versions| && Genuine(t.versions[t.loads[r][k]], t.pools.installed)
    ensures forall r :: 0 <= r < |After(s, run).loads| ==> Sorted(After(s, run).loads[r])
  {
    SoundInit(s);
    SoundRun(s, run);
  }

  /** Nothing published or registered is ever taken back. */
  predicate Extends(s: State, t: State)
  {
    s.versions <= t.versions && s.instruments <= t.instruments && s.registered <= t.registered
  }

  lemma ExtendsStep(s: State, a: Action)
    requires Sound(s) && Enabled(s, a)
    ensures Extends(s, Apply(s, a))
  {
    match a {
      case RunHook(accepted) => EnsuredKeeps(s, s.loop.names, accepted);
      case Register(j, accepted) => EnsuredKeeps(s, s.registrars[j].names, accepted);
      case _ =>
    }
  }

  lemma {:induction false} RunExtends(s: State, run: seq<Action>)
    requires Sound(s) && Runs(s, run)
    ensures Extends(s, After(s, run))
    decreases |run|
  {
    if run != [] {
      ExtendsStep(s, run[0]);
      SoundStep(s, run[0]);
      RunExtends(Apply(s, run[0]), run[1..]);
    }
  }

  /** From any moment of any run on: registrations and publications only grow, and no metric name ever
      gets a second instrument, however the hook and the reloads race. */
  lemma RegistrationsOnlyGrow(s: State, first: seq<Action>, rest: seq<Action>)
    requires Init(s) && Runs(s, first) && Runs(After(s, first), rest)
    ensures var t, u := After(s, first), After(After(s, first), rest);
      Extends(t, u) && NoDup(u.instruments) && Elems(u.instruments) == u.registered
  {
    SoundInit(s);
    SoundRun(s, first);
    RunExtends(After(s, first), rest);
    SoundRun(After(s, first), rest);
  }

  predicate NoPublish(run: seq<Action>)
  {
    forall i :: 0 <= i < |run| ==> !run[i].Publish?
  }

  lemma {:induction false} StaysCovered(s: State, run: seq<Action>)
    requires s.covered && Runs(s, run) && NoPublish(run)
    ensures After(s, run).covered
    decreases |run|
  {
    if run != [] {
      assert !run[0].Publish?;
      StaysCovered(Apply(s, run[0]), run[1..]);
    }
  }

  lemma CoveredUntilPublish(s: State, run: seq<Action>)
    requires Sound(s) && s.covered && Runs(s, run) && NoPublish(run)
    ensures var t := After(s, run); Elems(Latest(t).snap.names) <= t.registered
  {
    StaysCovered(s, run);
    SoundRun(s, run);
  }

  /** Once the hook's call has succeeded, every name of the current snapshot is registered, and this
      stays so until the next publication. */
  lemma HookCovers(s: State, first: seq<Action>, accepted: set<string>, rest: seq<Action>)
    requires Init(s) && Runs(s, first) && Enabled(After(s, first), RunHook(accepted))
    requires Ensure(After(s, first).loop.names, After(s, first).registered, accepted).ok
    requires Runs(HookRun(After(s, first), accepted), rest) && NoPublish(rest)
    ensures var u := After(HookRun(After(s, first), accepted), rest);
      Elems(Latest(u).snap.names) <= u.registered
  {
    SoundInit(s);
    SoundRun(s, first);
    SoundStep(After(s, first), RunHook(accepted));
    CoveredUntilPublish(HookRun(After(s, first), accepted), rest);
  }
}
