/** Why reloads must not overlap: whenever one reload stands between its swap and its SetClients
    call and another one is ready to swap, the schedule below leaves the collector with a list
    whose clients are all closed while the server holds a different one. */
module PoolRace {
  import opened Pools
  import opened PoolConservation
  import opened PoolAgreement
  import opened PoolShutdown

  function Closes(j: nat, count: nat): seq<Action>
  {
    seq(count, _ => CloseOld(j))
  }

  /** The closing loop of one reload, run to its end. */
  lemma {:induction false} ClosesAll(s: State, j: nat, rest: Pool)
    requires j < |s.reloaders| && s.reloaders[j] == Closing(rest)
    ensures Runs(s, Closes(j, |rest|))
    ensures After(s, Closes(j, |rest|)) == At(s, j, Closing([])).(closed := s.closed + rest)
    decreases |rest|
  {
    if rest == [] {
      assert s.reloaders[j := Closing([])] == s.reloaders && s.closed + rest == s.closed;
    } else {
      var next := ClosedOld(s, j);
      ClosesAll(next, j, rest[1..]);
      assert Closes(j, |rest|)[1..] == Closes(j, |rest[1..]|);
      SameAfterClose(s, j, rest);
    }
  }

  lemma SameAfterClose(s: State, j: nat, rest: Pool)
    requires j < |s.reloaders| && s.reloaders[j] == Closing(rest) && rest != []
    ensures var next := ClosedOld(s, j);
      next.closed + rest[1..] == s.closed + rest && next.reloaders[j := Closing([])] == s.reloaders[j := Closing([])]
  {
  }

  /** j swaps and installs, i installs last, j closes what it retired. */
  function LosingSchedule(i: nat, j: nat, retired: nat): seq<Action>
  {
    [SwapPool(j), InstallPool(j), InstallPool(i)] + Closes(j, retired)
  }

  /** The collector uses a list whose clients are all closed, and which the server no longer holds. */
  predicate CollectorIsDead(s: State)
  {
    s.collector != [] && s.collector != s.server && forall c :: c in s.collector ==> c in s.closed
  }

  lemma AfterThree(s: State, i: nat, j: nat)
    requires WindowAt(s, i) && s.reloaders[i].hasCollector && s.hasCollector
    requires j != i && j < |s.reloaders| && s.reloaders[j].Built?
    ensures var run := [SwapPool(j), InstallPool(j), InstallPool(i)];
      Runs(s, run) && var t := After(s, run);
      t.collector == s.reloaders[i].pool && t.server == s.reloaders[j].pool && t.closed == s.closed &&
      |t.reloaders| == |s.reloaders| && t.reloaders[j] == Closing(s.server) && t.built == s.built
  {
    var s1 := SwappedPool(s, j);
    var s2 := InstalledPool(s1, j);
    RunsOne(s2, InstallPool(i));
    RunsCons(s1, InstallPool(j), [InstallPool(i)]);
    RunsCons(s, SwapPool(j), [InstallPool(j), InstallPool(i)]);
  }

  lemma OverlapCanLosePool(s: State, run: seq<Action>, i: nat, j: nat)
    requires Init(s) && Runs(s, run)
    requires var t := After(s, run); Orderly(t) && Open(t) && WindowAt(t, i)
    requires var t := After(s, run); j != i && j < |t.reloaders| && t.reloaders[j].Built?
    ensures var t := After(s, run); var more := LosingSchedule(i, j, |t.server|);
      Runs(t, more) && CollectorIsDead(After(t, more))
  {
    var t := After(s, run);
    ConservedInit(s);
    ConservedRun(s, run);
    PoolsAgree(s, run);
    AccountedRun(s, run);
    assert Pending(t, i) && NonEmpty(t.reloaders[i]) && NonEmpty(t.reloaders[j]);
    var first := [SwapPool(j), InstallPool(j), InstallPool(i)];
    AfterThree(t, i, j);
    var u := After(t, first);
    ClosesAll(u, j, t.server);
    RunsConcat(t, first, Closes(j, |t.server|));
    var c := t.server[0];
    CountBuilt(t, c);
    HeldByMember(t.reloaders, j, c);
    assert Count(t.server, c) >= 1 && HeldBy(t.reloaders[j], c) == 0;
    assert c !in t.reloaders[j].pool;
  }
}
