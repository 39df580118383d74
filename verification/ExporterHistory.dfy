/** What each part of the running exporter works on, told by the actions of the run: readers by the last
    publication, publications by their own cycle's answers, registrations by the snapshot last loaded. */
module ExporterHistory {
  import opened Prelude
  import opened Snapshots
  import opened Push
  import opened Cycle
  import opened Exporter
  import opened ExporterProofs
  import opened ExporterLifetime

  lemma {:induction false} RunsSplit(s: State, first: seq<Action>, rest: seq<Action>)
    requires Runs(s, first + rest)
    ensures Runs(s, first) && Runs(After(s, first), rest) && After(s, first + rest) == After(After(s, first), rest)
    decreases |first|
  {
    if first == [] {
      assert first + rest == rest;
    } else {
      assert (first + rest)[1..] == first[1..] + rest;
      RunsSplit(Apply(s, first[0]), first[1..], rest);
    }
  }

  lemma RunsOne(s: State, a: Action)
    requires Runs(s, [a])
    ensures Enabled(s, a) && After(s, [a]) == Apply(s, a)
  {
    assert [a][1..] == [] && After(Apply(s, a), []) == Apply(s, a);
  }

  /** A run that ends with one more step. */
  lemma RunsLast(s: State, first: seq<Action>, a: Action)
    requires Runs(s, first + [a])
    ensures Runs(s, first) && Enabled(After(s, first), a) && After(s, first + [a]) == Apply(After(s, first), a)
  {
    RunsSplit(s, first, [a]);
    RunsOne(After(s, first), a);
  }

  // ---------------------------------------------------------------- readers

  /** Step p publishes, and no later step does. */
  predicate LastPublish(run: seq<Action>, p: int)
  {
    0 <= p < |run| && run[p].Publish? && NoPublish(run[p + 1..])
  }

  lemma {:induction false} KeepsVersions(s: State, run: seq<Action>)
    requires Runs(s, run) && NoPublish(run)
    ensures After(s, run).versions == s.versions
    decreases |run|
  {
    if run != [] {
      assert !run[0].Publish?;
      KeepsVersions(Apply(s, run[0]), run[1..]);
    }
  }

  lemma HoldsLastPublished(s: State, run: seq<Action>, p: int)
    requires Runs(s, run) && LastPublish(run, p)
    ensures var t := After(s, run); t.versions != [] && Latest(t).snap == run[p].snap
  {
    var first, rest := run[..p], run[p + 1..];
    assert run == (first + [run[p]]) + rest;
    RunsSplit(s, first + [run[p]], rest);
    RunsLast(s, first, run[p]);
    KeepsVersions(After(s, first + [run[p]]), rest);
  }

  /** The snapshot this reader loaded last. */
  function LastLoaded(s: State, r: nat): Option<Snapshot>
  {
    if r < |s.loads| && s.loads[r] != [] && s.loads[r][|s.loads[r]| - 1] < |s.versions|
    then Some(s.versions[s.loads[r][|s.loads[r]| - 1]].snap)
    else None
  }

  /** One more load by reader r, of this snapshot; everything else that was loaded stays on record. */
  predicate LoadsNext(u: State, t: State, r: nat, snap: Snapshot)
  {
    && r < |t.loads| == |u.loads| && |t.loads[r]| == |u.loads[r]| + 1 && u.loads[r] <= t.loads[r]
    && LastLoaded(t, r) == Some(snap)
    && forall q :: 0 <= q < |u.loads| && q != r ==> t.loads[q] == u.loads[q]
  }

  lemma LoadIsLatest(u: State, r: nat)
    requires Enabled(u, Load(r))
    ensures LoadsNext(u, Apply(u, Load(r)), r, Latest(u).snap)
  {
  }

  /** A reader gets the snapshot published last, or the seed if there has been no publication yet. */
  lemma LoadsAreFresh(s: State, first: seq<Action>, r: nat)
    requires Init(s) && Runs(s, first + [Load(r)])
    ensures Runs(s, first)
    ensures var u, t := After(s, first), After(s, first + [Load(r)]);
      && (forall p :: LastPublish(first, p) ==> LoadsNext(u, t, r, first[p].snap))
      && (NoPublish(first) ==> LoadsNext(u, t, r, s.versions[0].snap))
  {
    RunsLast(s, first, Load(r));
    var u, t := After(s, first), After(s, first + [Load(r)]);
    assert LoadsNext(u, t, r, Latest(u).snap) by {
      LoadIsLatest(u, r);
    }
    forall p | LastPublish(first, p)
      ensures Latest(u).snap == first[p].snap
    {
      HoldsLastPublished(s, first, p);
    }
    if NoPublish(first) {
      KeepsVersions(s, first);
    }
  }

  // ---------------------------------------------------------------- publications

  predicate NoBegin(run: seq<Action>)
  {
    forall k :: 0 <= k < |run| ==> !run[k].BeginCycle?
  }

  lemma {:induction false} NoCycleWithoutBegin(s: State, run: seq<Action>)
    requires !s.loop.Collecting? && Runs(s, run) && NoBegin(run)
    ensures !After(s, run).loop.Collecting?
    decreases |run|
  {
    if run != [] {
      assert !run[0].BeginCycle?;
      NoCycleWithoutBegin(Apply(s, run[0]), run[1..]);
    }
  }

  /** A cycle in progress keeps its list, and fills each slot with the answer of its own client. */
  lemma {:induction false} CycleKeepsList(s: State, run: seq<Action>)
    requires s.loop.Collecting? && Runs(s, run) && NoBegin(run) && After(s, run).loop.Collecting?
    ensures var t := After(s, run);
      && t.loop.pool == s.loop.pool && |t.loop.replies| == |s.loop.replies|
      && forall i :: 0 <= i < |t.loop.replies| && t.loop.replies[i].Some? ==>
           t.loop.replies[i] == s.loop.replies[i] || Answer(i, t.loop.replies[i].value) in run
    decreases |run|
  {
    if run != [] {
      assert !run[0].BeginCycle?;
      var next := Apply(s, run[0]);
      if !next.loop.Collecting? {
        NoCycleWithoutBegin(next, run[1..]);
      }
      CycleKeepsList(next, run[1..]);
      assert forall a :: a in run[1..] ==> a in run;
      if run[0].Answer? {
        assert run[0] in run && next == Answered(s, run[0].i, run[0].reply);
      } else {
        assert next.loop == s.loop;
      }
    }
  }

  /** What a cycle publishes is the snapshot of the list the collector held when the cycle began, with one
      result per client, each from an answer that client gave during this cycle. */
  lemma CyclePublishesItsAnswers(s: State, first: seq<Action>, mid: seq<Action>, snap: Snapshot)
    requires Init(s) && Runs(s, first + [BeginCycle] + mid + [Publish(snap)]) && NoBegin(mid)
    ensures Runs(s, first)
    ensures var v := Latest(After(s, first + [BeginCycle] + mid + [Publish(snap)]));
      && v.pool == After(s, first).pools.collector && |v.replies| == |v.pool|
      && (forall i :: 0 <= i < |v.pool| ==> Answer(i, v.replies[i]) in mid)
      && v.snap == snap && IsSnapshotOf(snap, ResultsFor(v.pool, v.replies))
  {
    RunsLast(s, first + [BeginCycle] + mid, Publish(snap));
    RunsSplit(s, first + [BeginCycle], mid);
    RunsLast(s, first, BeginCycle);
    var began := After(s, first + [BeginCycle]);
    assert began == Begun(After(s, first));
    CycleKeepsList(began, mid);
    var t := After(s, first + [BeginCycle] + mid);
    assert t == After(began, mid);
    assert Apply(t, Publish(snap)) == Stored(t, snap);
  }

  // ---------------------------------------------------------------- the hook

  lemma {:induction false} HookStays(s: State, run: seq<Action>)
    requires Runs(s, run) && (s.hookSet || SetHook in run)
    ensures After(s, run).hookSet
    decreases |run|
  {
    if run != [] {
      assert SetHook in run ==> run[0] == SetHook || SetHook in run[1..];
      HookStays(Apply(s, run[0]), run[1..]);
    }
  }

  lemma {:induction false} HookBeforeNext(s: State, run: seq<Action>)
    requires Runs(s, run) && s.hookSet && (s.loop.Published? || s.loop.Hooked?)
    requires forall k :: 0 <= k < |run| ==> !run[k].RunHook?
    ensures After(s, run).loop.Published? || After(s, run).loop.Hooked?
    decreases |run|
  {
    if run != [] {
      assert !run[0].RunHook?;
      HookBeforeNext(Apply(s, run[0]), run[1..]);
    }
  }

  /** Once the hook is set it is run after every publication, before the next cycle begins. */
  lemma HookRunsEveryCycle(s: State, first: seq<Action>, snap: Snapshot, mid: seq<Action>)
    requires Runs(s, first + [Publish(snap)] + mid + [BeginCycle]) && SetHook in first
    ensures exists k :: 0 <= k < |mid| && mid[k].RunHook?
  {
    RunsLast(s, first + [Publish(snap)] + mid, BeginCycle);
    RunsSplit(s, first + [Publish(snap)], mid);
    RunsLast(s, first, Publish(snap));
    HookStays(s, first);
    if forall k :: 0 <= k < |mid| ==> !mid[k].RunHook? {
      HookBeforeNext(After(s, first + [Publish(snap)]), mid);
    }
  }

  /** Step k is a hook call that gets to its end, and nothing is published after it. */
  ghost predicate HookSucceeds(s: State, run: seq<Action>, k: int)
  {
    && 0 <= k < |run| && run[k].RunHook? && NoPublish(run[k + 1..]) && Runs(s, run[..k])
    && var t := After(s, run[..k]);
       t.loop.Hooked? && Elems(t.loop.names) <= t.registered + run[k].accepted
  }

  lemma SucceedsEarlier(s: State, run: seq<Action>, a: Action, k: int)
    requires Runs(s, run + [a]) && 0 <= k < |run|
    ensures HookSucceeds(s, run + [a], k) <==> HookSucceeds(s, run, k) && !a.Publish?
  {
    assert (run + [a])[..k] == run[..k] && (run + [a])[k + 1..] == run[k + 1..] + [a];
    NoPublishLast(run[k + 1..], a);
  }

  lemma NoPublishLast(run: seq<Action>, a: Action)
    ensures NoPublish(run + [a]) <==> NoPublish(run) && !a.Publish?
  {
    var all := run + [a];
    assert all[|run|] == a;
    assert forall i :: 0 <= i < |run| ==> run[i] == all[i];
  }

  lemma SucceedsNow(s: State, run: seq<Action>, a: Action)
    requires Runs(s, run + [a])
    ensures Runs(s, run)
    ensures HookSucceeds(s, run + [a], |run|) <==>
      a.RunHook? && After(s, run).loop.Hooked? &&
      Elems(After(s, run).loop.names) <= After(s, run).registered + a.accepted
  {
    RunsLast(s, run, a);
    assert (run + [a])[..|run|] == run && (run + [a])[|run| + 1..] == [];
  }

  /** The current snapshot counts as covered exactly when a hook call that began with it, or with a later
      one, has got to its end. */
  lemma {:induction false} CoveredDescribesRun(s: State, run: seq<Action>)
    requires Init(s) && Runs(s, run)
    ensures After(s, run).covered <==> exists k :: HookSucceeds(s, run, k)
    decreases |run|
  {
    if run != [] {
      var n := |run| - 1;
      var before, a := run[..n], run[n];
      assert run == before + [a];
      RunsLast(s, before, a);
      CoveredDescribesRun(s, before);
      SucceedsNow(s, before, a);
      forall k | 0 <= k < n
        ensures HookSucceeds(s, run, k) <==> HookSucceeds(s, before, k) && !a.Publish?
      {
        SucceedsEarlier(s, before, a, k);
      }
      var t := After(s, before);
      if a.RunHook? {
        EnsureSucceedsIff(t.loop.names, t.registered, a.accepted);
        assert Apply(t, a) == HookRun(t, a.accepted);
      } else {
        assert Apply(t, a).covered == (t.covered && !a.Publish?);
      }
    }
  }

  // ---------------------------------------------------------------- other registrations

  lemma {:induction false} RegistrarWaits(s: State, run: seq<Action>, j: nat)
    requires Runs(s, run) && j < |s.registrars| && s.registrars[j].Loaded?
    requires forall k :: 0 <= k < |run| && run[k].Register? ==> run[k].j != j
    ensures |After(s, run).registrars| == |s.registrars| && After(s, run).registrars[j] == s.registrars[j]
    decreases |run|
  {
    if run != [] {
      RegistrarWaits(Apply(s, run[0]), run[1..], j);
    }
  }

  /** Any other caller registers the names of the snapshot that was current when it loaded one: all of them,
      if the meter accepts those that are new by then. */
  lemma RegistrarCovers(s: State, first: seq<Action>, j: nat, mid: seq<Action>, accepted: set<string>)
    requires Init(s) && Runs(s, first + [LoadNames(j)] + mid + [Register(j, accepted)])
    requires forall k :: 0 <= k < |mid| && mid[k].Register? ==> mid[k].j != j
    ensures Runs(s, first) && Runs(s, first + [LoadNames(j)] + mid)
    ensures var names := Elems(Latest(After(s, first)).snap.names);
      names <= After(s, first + [LoadNames(j)] + mid).registered + accepted ==>
      names <= After(s, first + [LoadNames(j)] + mid + [Register(j, accepted)]).registered
  {
    RunsLast(s, first + [LoadNames(j)] + mid, Register(j, accepted));
    RunsSplit(s, first + [LoadNames(j)], mid);
    RunsLast(s, first, LoadNames(j));
    RegistrarWaits(After(s, first + [LoadNames(j)]), mid, j);
    var t := After(s, first + [LoadNames(j)] + mid);
    EnsureSucceedsIff(t.registrars[j].names, t.registered, accepted);
  }

  /** The loop ends after shutdown has begun, and not before. */
  lemma {:induction false} LoopOutlivesServer(s: State, run: seq<Action>)
    requires Runs(s, run) && (s.loop.Ended? ==> !s.pools.stop.Running?)
    ensures After(s, run).loop.Ended? ==> !After(s, run).pools.stop.Running?
    decreases |run|
  {
    if run != [] {
      if run[0].PoolStep? {
        DisorderStays(s.pools, run[0].a);
      }
      LoopOutlivesServer(Apply(s, run[0]), run[1..]);
    }
  }
}
