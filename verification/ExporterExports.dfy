/** What the two export paths show of the current snapshot, in every run of the exporter. */
module ExporterExports {
  import opened Prelude
  import opened Snapshots
  import opened Push
  import opened Pull
  import opened SignatureProofs
  import opened ExportParity
  import opened Cycle
  import opened Completeness
  import opened Exporter
  import opened ExporterProofs
  import opened ExporterLifetime
  import opened PoolNames

  // ---------------------------------------------------------------- labels

  /** A client's answers carry its own array's name and the label keys of their families. */
  predicate LabelledAnswer(s: State, a: Action)
  {
    a.Answer? && s.loop.Collecting? && a.i < |s.loop.pool| ==> WellLabelled(s.loop.pool[a.i].name, a.reply)
  }

  /** Every answer of the run is well labelled, as those of ArrayClient always are. */
  ghost predicate LabelledRun(s: State, run: seq<Action>)
    requires Runs(s, run)
    decreases |run|
  {
    run != [] ==> LabelledAnswer(s, run[0]) && LabelledRun(Apply(s, run[0]), run[1..])
  }

  predicate LabelledVersion(v: Version)
  {
    |v.replies| == |v.pool| && AllWellLabelled(v.pool, v.replies)
  }

  predicate LabelledLoop(loop: LoopPc)
  {
    loop.Collecting? ==>
      |loop.replies| == |loop.pool| &&
      forall i :: 0 <= i < |loop.pool| && loop.replies[i].Some? ==>
        WellLabelled(loop.pool[i].name, loop.replies[i].value)
  }

  predicate Labelled(s: State)
  {
    LabelledLoop(s.loop) && forall k :: 0 <= k < |s.versions| ==> LabelledVersion(s.versions[k])
  }

  lemma LabelledStep(s: State, a: Action)
    requires Labelled(s) && Enabled(s, a) && LabelledAnswer(s, a)
    ensures Labelled(Apply(s, a))
  {
    if a.Publish? {
      assert LabelledVersion(Version(s.loop.pool, Values(s.loop.replies), a.snap));
    } else if a.Answer? {
      assert LabelledLoop(Answered(s, a.i, a.reply).loop);
    } else {
      assert LabelledLoop(Apply(s, a).loop) && Apply(s, a).versions == s.versions;
    }
  }

  lemma {:induction false} LabelledAfter(s: State, run: seq<Action>)
    requires Labelled(s) && Runs(s, run) && LabelledRun(s, run)
    ensures Labelled(After(s, run))
    decreases |run|
  {
    if run != [] {
      LabelledStep(s, run[0]);
      LabelledAfter(Apply(s, run[0]), run[1..]);
    }
  }

  // ---------------------------------------------------------------- the two paths

  /** What is known of a covered state, free of the run that led to it. */
  ghost predicate Covered(v: Version, instruments: seq<string>)
  {
    && LabelledVersion(v) && IsSnapshotOf(v.snap, ResultsFor(v.pool, v.replies))
    && NoDup(instruments) && Elems(v.snap.names) <= Elems(instruments)
  }

  lemma CoveredState(s: State)
    requires Sound(s) && Labelled(s) && s.covered
    ensures Covered(Latest(s), s.instruments)
  {
    assert Genuine(Latest(s), s.pools.installed) && LabelledVersion(Latest(s));
  }

  /** No series twice; and the gauges observe what the scrape shows if and only if no metric of the
      snapshot repeats a signature. */
  ghost predicate ExportsAgree(v: Version, instruments: seq<string>, scrape: seq<Metric>)
    requires |v.replies| == |v.pool|
  {
    && NoSeriesTwice(scrape)
    && (multiset(Shown(EmittedAll(v.snap, v.snap.names))) == multiset(Observed(v.snap, instruments))
        <==> NoRepeats(v.snap.names, AllSamples(ResultsFor(v.pool, v.replies))))
  }

  lemma CoveredVersion(v: Version, instruments: seq<string>, scrape: seq<Metric>)
    requires Covered(v, instruments) && IsScrape(scrape, v.snap)
    ensures ExportsAgree(v, instruments, scrape)
  {
    EveryCycleExportsCleanly(v.snap, ResultsFor(v.pool, v.replies), v.pool, v.replies, scrape, instruments);
  }

  lemma ReachedCovered(s: State, run: seq<Action>)
    requires Init(s) && Runs(s, run) && LabelledRun(s, run) && After(s, run).covered
    ensures Covered(Latest(After(s, run)), After(s, run).instruments)
  {
    SoundInit(s);
    SoundRun(s, run);
    LabelledAfter(s, run);
    CoveredState(After(s, run));
  }

  /** In every run, once the hook has covered the current snapshot: a scrape of it shows no series twice, and
      the gauges observe exactly what the scrape shows if and only if no metric repeats a signature. */
  lemma CoveredExportsAgree(s: State, run: seq<Action>, scrape: seq<Metric>)
    requires Init(s) && Runs(s, run) && LabelledRun(s, run) && After(s, run).covered
    requires IsScrape(scrape, Latest(After(s, run)).snap)
    ensures var t := After(s, run);
      |Latest(t).replies| == |Latest(t).pool| && ExportsAgree(Latest(t), t.instruments, scrape)
  {
    ReachedCovered(s, run);
    CoveredVersion(Latest(After(s, run)), After(s, run).instruments, scrape);
  }

  /** The arrays of one version have names of their own. */
  lemma ReachedDistinct(s: State, run: seq<Action>)
    requires Init(s) && Runs(s, run)
    ensures DistinctNames(Latest(After(s, run)).pool)
  {
    SoundInit(s);
    SoundRun(s, run);
    PoolsRunAlone(s, run);
    var v, installed := Latest(After(s, run)), After(s, run).pools.installed;
    assert Genuine(v, installed);
    if v.pool in installed {
      InstalledAreDistinct(s.pools, PoolPart(run), v.pool);
    }
  }

  /** What is known of a reached version, covered or not. */
  ghost predicate Whole(v: Version)
  {
    LabelledVersion(v) && IsSnapshotOf(v.snap, ResultsFor(v.pool, v.replies)) && DistinctNames(v.pool)
  }

  lemma ReachedWhole(s: State, run: seq<Action>)
    requires Init(s) && Runs(s, run) && LabelledRun(s, run)
    ensures Whole(Latest(After(s, run)))
  {
    SoundInit(s);
    SoundRun(s, run);
    LabelledAfter(s, run);
    ReachedDistinct(s, run);
    var t := After(s, run);
    assert Genuine(Latest(t), t.pools.installed) && LabelledVersion(Latest(t));
  }

  lemma WholeUp(v: Version, scrape: seq<Metric>, i: nat)
    requires Whole(v) && IsScrape(scrape, v.snap) && i < |v.pool|
    ensures exists k ::
      OnlyAt(scrape, k, Metric("powerstore_up", ["array"], [v.pool[i].name], OneIf(Delivers(v.replies[i]))))
  {
    CycleConforms(ResultsFor(v.pool, v.replies), v.pool, v.replies);
    UpIffDelivered(v.snap, ResultsFor(v.pool, v.replies), v.pool, v.replies, scrape, i);
  }

  /** In every run, of the snapshot published last: for each client of its cycle a scrape says once whether it
      is up, and that is 1 exactly when the client delivered samples. */
  lemma UpTellsDelivery(s: State, run: seq<Action>, scrape: seq<Metric>, i: nat)
    requires Init(s) && Runs(s, run) && LabelledRun(s, run)
    requires IsScrape(scrape, Latest(After(s, run)).snap) && i < |Latest(After(s, run)).pool|
    ensures var v := Latest(After(s, run));
      |v.replies| == |v.pool| && exists k ::
        OnlyAt(scrape, k, Metric("powerstore_up", ["array"], [v.pool[i].name], OneIf(Delivers(v.replies[i]))))
  {
    ReachedWhole(s, run);
    WholeUp(Latest(After(s, run)), scrape, i);
  }

  /** With NUL-free array names and no array repeating a series, the two paths always agree. */
  lemma DistinctArraysExportEqually(s: State, run: seq<Action>, scrape: seq<Metric>)
    requires Init(s) && Runs(s, run) && LabelledRun(s, run) && After(s, run).covered
    requires IsScrape(scrape, Latest(After(s, run)).snap)
    requires var v := Latest(After(s, run));
      |v.replies| == |v.pool| && NulFreeNames(v.pool) && NoReplyRepeats(v.pool, v.replies)
    ensures var t := After(s, run); var snap := Latest(t).snap;
      multiset(Shown(EmittedAll(snap, snap.names))) == multiset(Observed(snap, t.instruments))
  {
    ReachedCovered(s, run);
    ReachedDistinct(s, run);
    EqualVersion(Latest(After(s, run)), After(s, run).instruments, scrape);
  }

  lemma EqualVersion(v: Version, instruments: seq<string>, scrape: seq<Metric>)
    requires Covered(v, instruments) && IsScrape(scrape, v.snap)
    requires DistinctNames(v.pool) && NulFreeNames(v.pool) && NoReplyRepeats(v.pool, v.replies)
    ensures multiset(Shown(EmittedAll(v.snap, v.snap.names))) == multiset(Observed(v.snap, instruments))
  {
    CoveredVersion(v, instruments, scrape);
    CycleNeverRepeats(ResultsFor(v.pool, v.replies), v.pool, v.replies, v.snap.names);
  }
}
