/** Nothing is missing from a scrape: what a whole cycle collects, the scrape shows, when label values
    are free of NUL; and no metric repeats a signature when no single array does. */
module Completeness {
  import opened Prelude
  import opened Metrics
  import opened Snapshots
  import opened Pools
  import opened PoolNames
  import opened Pull
  import opened PullProofs
  import opened SignatureProofs
  import opened ExportParity
  import opened Cycle

  predicate SameSeries(s: Sample, t: Sample)
  {
    s.name == t.name && LabelValues(s.labels) == LabelValues(t.labels)
  }

  /** Sample i is the first one collected of its series. */
  predicate FirstOfSeries(samples: seq<Sample>, i: nat)
  {
    i < |samples| && forall j :: 0 <= j < i ==> !SameSeries(samples[j], samples[i])
  }

  /** The first sample of a series is also its first one under its name. */
  lemma {:induction false} FirstInByName(samples: seq<Sample>, i: nat) returns (k: nat)
    requires FirstOfSeries(samples, i)
    ensures var mine := ByName(samples, samples[i].name); k < |mine| && mine[k] == samples[i] && FirstOfSeries(mine, k)
  {
    var n := |samples| - 1;
    var name := samples[i].name;
    var before := ByName(samples[..n], name);
    if i < n {
      k := FirstInByName(samples[..n], i);
      assert ByName(samples, name)[..|before|] == before;
    } else {
      k := |before|;
      ByNameKeeps(samples[..n], name);
      forall j | 0 <= j < k
        ensures !SameSeries(before[j], samples[n])
      {
        assert before[j] in before;
        var p :| 0 <= p < n && samples[p] == before[j];
      }
    }
  }

  /** Under one name, the first sample of a series is emitted as it is. */
  lemma FirstIsEmitted(samples: seq<Sample>, name: string, k: nat)
    requires Named(samples, name) && UniformKeys(samples) && UniformArity(samples) && NulFreeSamples(samples)
    requires FirstOfSeries(samples, k)
    ensures AsMetric(LabelNames(samples[k].labels), samples[k]) in Emitted(samples)
  {
    NulFreeIsFaithful(samples, name);
    FaithfulEmits(samples, k);
    var p :| 0 <= p < |Emitted(samples)| && Emitted(samples)[p].values == LabelValues(samples[k].labels);
    FirstSampleWins(samples, name, k, p);
    EmittedAt(samples);
    var f := FirstsAreFirst(samples, p);
    assert Emitted(samples)[p] == AsMetric(LabelNames(samples[k].labels), samples[k]);
  }

  lemma {:induction false} EmittedAllHas(snap: Snapshot, names: seq<string>, k: nat, m: Metric)
    requires k < |names| && m in Emitted(snap.SamplesByName(names[k]))
    ensures m in EmittedAll(snap, names)
  {
    if k < |names| - 1 {
      EmittedAllHas(snap, names[..|names| - 1], k, m);
    }
  }

  lemma ByNameNulFree(samples: seq<Sample>, name: string)
    requires NulFreeSamples(samples)
    ensures NulFreeSamples(ByName(samples, name))
  {
    ByNameKeeps(samples, name);
    var mine := ByName(samples, name);
    forall i | 0 <= i < |mine|
      ensures AllNulFree(LabelValues(mine[i].labels))
    {
      assert mine[i] in mine;
    }
  }

  lemma FirstIsCollected(snap: Snapshot, results: Results, i: nat)
    requires IsSnapshotOf(snap, results) && UniformKeys(AllSamples(results)) && NulFreeSamples(AllSamples(results))
    requires FirstOfSeries(AllSamples(results), i)
    ensures var s := AllSamples(results)[i]; AsMetric(LabelNames(s.labels), s) in EmittedAll(snap, snap.names)
  {
    var flat := AllSamples(results);
    var s := flat[i];
    var k := FirstInByName(flat, i);
    ByNameUniform(flat, s.name);
    ByNameNulFree(flat, s.name);
    FirstIsEmitted(ByName(flat, s.name), s.name, k);
    LookupIsFilter(snap, results, s.name);
    NamePresent(snap, results, s);
    var p :| 0 <= p < |snap.names| && snap.names[p] == s.name;
    EmittedAllHas(snap, snap.names, p, AsMetric(LabelNames(s.labels), s));
  }

  /** The metric at position k is the only one of its series. */
  predicate OnlyAt(out: seq<Metric>, k: nat, m: Metric)
  {
    && k < |out| && out[k] == m
    && forall j :: 0 <= j < |out| && j != k ==> out[j].name != m.name || out[j].values != m.values
  }

  /** Every series that a cycle collects is shown exactly once, with the value of its first sample. */
  lemma ScrapeIsComplete(snap: Snapshot, results: Results, scrape: seq<Metric>, i: nat)
    requires IsSnapshotOf(snap, results) && AllConform(AllSamples(results)) && NulFreeSamples(AllSamples(results))
    requires IsScrape(scrape, snap) && FirstOfSeries(AllSamples(results), i)
    ensures var s := AllSamples(results)[i];
      exists k :: OnlyAt(scrape, k, Metric(s.name, LabelNames(s.labels), LabelValues(s.labels), s.value))
  {
    var s := AllSamples(results)[i];
    var m := AsMetric(LabelNames(s.labels), s);
    ConformingAreUniform(AllSamples(results));
    FirstIsCollected(snap, results, i);
    SnapshotFiledByName(snap, results);
    NamesAreNotHealth(snap, results);
    CollectNeverRepeats(snap, scrape);
    assert m in scrape;
    var k :| 0 <= k < |scrape| && scrape[k] == m;
    OnlyOne(scrape, k, m);
  }

  /** Nothing else is shown: a metric of a scrape is some array's health, or a sample that the cycle collected. */
  lemma ScrapeIsSound(snap: Snapshot, results: Results, scrape: seq<Metric>, m: Metric)
    requires IsSnapshotOf(snap, results) && AllConform(AllSamples(results)) && IsScrape(scrape, snap) && m in scrape
    ensures ToldBySome(m, snap.perArray) || exists s :: s in AllSamples(results) && ShownAs(s, m)
  {
    ConformingAreUniform(AllSamples(results));
    SnapshotFiledByName(snap, results);
    NamesAreNotHealth(snap, results);
    HealthIsTold(snap, scrape);
    if !HealthName(m.name) {
      var health :| IsHealth(health, snap.perArray) && scrape == health + EmittedAll(snap, snap.names);
      var order :| NoDup(order) && Elems(order) == snap.perArray.Keys && health == Health(snap.perArray, order);
      HealthNoSeriesTwice(snap.perArray, order);
      EmittedFromCycle(snap, results, snap.names, m);
    }
  }

  /** The metric carries the sample's own label names, values and number. */
  predicate ShownAs(s: Sample, m: Metric)
  {
    m == Metric(s.name, LabelNames(s.labels), LabelValues(s.labels), s.value)
  }

  lemma EmittedFrom(samples: seq<Sample>, m: Metric)
    requires UniformKeys(samples) && UniformArity(samples) && m in Emitted(samples)
    requires forall i :: 0 <= i < |samples| ==> samples[i].name == samples[0].name
    ensures exists s :: s in samples && ShownAs(s, m)
  {
    EmittedAt(samples);
    var k :| 0 <= k < |Emitted(samples)| && Emitted(samples)[k] == m;
    var f := FirstsAreFirst(samples, k);
    assert samples[f] in samples && LabelNames(samples[f].labels) == LabelNames(samples[0].labels);
    assert ShownAs(samples[f], m);
  }

  lemma {:induction false} EmittedFromCycle(snap: Snapshot, results: Results, names: seq<string>, m: Metric)
    requires IsSnapshotOf(snap, results) && UniformKeys(AllSamples(results)) && m in EmittedAll(snap, names)
    ensures exists s :: s in AllSamples(results) && ShownAs(s, m)
  {
    var n := |names| - 1;
    if m in EmittedAll(snap, names[..n]) {
      EmittedFromCycle(snap, results, names[..n], m);
    } else {
      var mine := ByName(AllSamples(results), names[n]);
      LookupIsFilter(snap, results, names[n]);
      ByNameUniform(AllSamples(results), names[n]);
      ByNameKeeps(AllSamples(results), names[n]);
      EmittedFrom(mine, m);
      var s :| s in mine && ShownAs(s, m);
      assert s in AllSamples(results);
    }
  }

  // ---------------------------------------------------------------- up

  /** The client got its inventory, and samples on one of the two paths. */
  predicate Delivers(q: Reply)
  {
    q.topology.Ok? && ((q.bulkCapable && q.bulk.Ok?) || q.perEntity.Ok?)
  }

  lemma OwnResult(snap: Snapshot, results: Results, pool: Pool, replies: seq<Reply>, i: nat)
    requires ResultsOf(results, pool, replies) && IsSnapshotOf(snap, results) && DistinctNames(pool) && i < |pool|
    ensures pool[i].name in snap.perArray && snap.perArray[pool[i].name] == Collected(pool[i].name, replies[i])
  {
    assert DistinctArrays(results);
    LastNamedUnique(results, i);
  }

  /** A health metric that an array calls for is shown once. */
  lemma ToldOnce(snap: Snapshot, scrape: seq<Metric>, name: string, m: Metric)
    requires FiledByName(snap) && NoDup(snap.names) && IsScrape(scrape, snap)
    requires forall other :: other in snap.names ==> !HealthName(other)
    requires name in snap.perArray && ToldBy(m, name, snap.perArray[name])
    ensures exists k :: OnlyAt(scrape, k, m)
  {
    HealthIsTold(snap, scrape);
    assert HealthName(m.name) && ToldBySome(m, snap.perArray);
    var k :| 0 <= k < |scrape| && scrape[k] == m;
    OnlyOne(scrape, k, m);
  }

  lemma DeliveryIsTold(name: string, q: Reply)
    ensures ToldBy(Metric("powerstore_up", ["array"], [name], OneIf(Delivers(q))), name, Collected(name, q))
  {
  }

  /** For each client of the cycle a scrape says once whether it is up: 1 exactly when it delivered samples. */
  lemma UpIffDelivered(snap: Snapshot, results: Results, pool: Pool, replies: seq<Reply>, scrape: seq<Metric>, i: nat)
    requires ResultsOf(results, pool, replies) && IsSnapshotOf(snap, results) && AllConform(AllSamples(results))
    requires DistinctNames(pool) && IsScrape(scrape, snap) && i < |pool|
    ensures exists k ::
      OnlyAt(scrape, k, Metric("powerstore_up", ["array"], [pool[i].name], OneIf(Delivers(replies[i]))))
  {
    SnapshotFiledByName(snap, results);
    NamesAreNotHealth(snap, results);
    OwnResult(snap, results, pool, replies, i);
    DeliveryIsTold(pool[i].name, replies[i]);
    ToldOnce(snap, scrape, pool[i].name, Metric("powerstore_up", ["array"], [pool[i].name],
                                                OneIf(Delivers(replies[i]))));
  }

  lemma OnlyOne(out: seq<Metric>, k: nat, m: Metric)
    requires NoSeriesTwice(out) && k < |out| && out[k] == m
    ensures OnlyAt(out, k, m)
  {
    forall j | 0 <= j < |out| && j != k
      ensures out[j].name != m.name || out[j].values != m.values
    {
      assert SeriesOf(out)[j] != SeriesOf(out)[k];
    }
  }

  // ---------------------------------------------------------------- no repeated signature

  /** No two samples of one name share a signature. */
  predicate NoSignatureTwice(samples: seq<Sample>)
  {
    forall i, j :: 0 <= i < j < |samples| && samples[i].name == samples[j].name ==>
      Signature(samples[i]) != Signature(samples[j])
  }

  lemma {:induction false} NoSignatureTwiceByName(samples: seq<Sample>, name: string)
    requires NoSignatureTwice(samples)
    ensures DistinctSignatures(ByName(samples, name))
  {
    if samples != [] {
      var n := |samples| - 1;
      NoSignatureTwiceByName(samples[..n], name);
      ByNameKeeps(samples[..n], name);
      var before := ByName(samples[..n], name);
      forall j | 0 <= j < |before|
        ensures samples[n].name == name ==> Signature(before[j]) != Signature(samples[n])
      {
        assert before[j] in before;
        var p :| 0 <= p < n && samples[p] == before[j];
      }
    }
  }

  /** No array's name has a NUL in it. */
  predicate NulFreeNames(pool: Pool)
  {
    forall i :: 0 <= i < |pool| ==> NulFree(pool[i].name)
  }

  predicate NoReplyRepeats(pool: Pool, replies: seq<Reply>)
    requires |replies| == |pool|
  {
    forall i :: 0 <= i < |pool| ==> NoSignatureTwice(Collected(pool[i].name, replies[i]).samples)
  }

  predicate OfSome(s: Sample, pool: Pool, replies: seq<Reply>)
    requires |replies| == |pool|
  {
    exists i :: 0 <= i < |pool| && s in Collected(pool[i].name, replies[i]).samples
  }

  /** What a cycle collects, array by array. */
  lemma {:induction false} CollectedFromSome(results: Results, pool: Pool, replies: seq<Reply>)
    requires ResultsOf(results, pool, replies)
    ensures forall s :: s in AllSamples(results) ==> OfSome(s, pool, replies)
  {
    if results != [] {
      var n := |results| - 1;
      CollectedFromSome(results[..n], pool[..n], replies[..n]);
      forall s | s in AllSamples(results)
        ensures OfSome(s, pool, replies)
      {
        if s in AllSamples(results[..n]) {
          assert OfSome(s, pool[..n], replies[..n]);
          var i :| 0 <= i < n && s in Collected(pool[..n][i].name, replies[..n][i]).samples;
          assert s in Collected(pool[i].name, replies[i]).samples;
        } else {
          assert s in Collected(pool[n].name, replies[n]).samples;
        }
      }
    }
  }

  lemma {:induction false} NoSignatureTwiceInCycle(results: Results, pool: Pool, replies: seq<Reply>)
    requires ResultsOf(results, pool, replies) && AllWellLabelled(pool, replies)
    requires DistinctNames(pool) && NulFreeNames(pool) && NoReplyRepeats(pool, replies)
    ensures NoSignatureTwice(AllSamples(results))
  {
    if results != [] {
      var n := |results| - 1;
      NoSignatureTwiceInCycle(results[..n], pool[..n], replies[..n]);
      CollectedFromSome(results[..n], pool[..n], replies[..n]);
      var before, mine := AllSamples(results[..n]), Collected(pool[n].name, replies[n]).samples;
      forall i, j | 0 <= i < |before| && 0 <= j < |mine| && before[i].name == mine[j].name
        ensures Signature(before[i]) != Signature(mine[j])
      {
        assert before[i] in before && OfSome(before[i], pool[..n], replies[..n]);
        var p :| 0 <= p < n && before[i] in Collected(pool[..n][p].name, replies[..n][p]).samples;
        assert mine[j] in mine;
        ArraysKeepTheirSeries(pool, replies, p, n, before[i], mine[j]);
      }
      JoinedDistinct(before, mine);
      assert AllSamples(results) == before + mine;
    }
  }

  lemma JoinedDistinct(x: seq<Sample>, y: seq<Sample>)
    requires NoSignatureTwice(x) && NoSignatureTwice(y)
    requires forall i, j :: 0 <= i < |x| && 0 <= j < |y| && x[i].name == y[j].name ==>
      Signature(x[i]) != Signature(y[j])
    ensures NoSignatureTwice(x + y)
  {
  }

  /** Arrays with names of their own never repeat each other's signatures: a cycle repeats none unless
      some array's own answer does. */
  lemma CycleNeverRepeats(results: Results, pool: Pool, replies: seq<Reply>, names: seq<string>)
    requires ResultsOf(results, pool, replies) && AllWellLabelled(pool, replies)
    requires DistinctNames(pool) && NulFreeNames(pool) && NoReplyRepeats(pool, replies)
    ensures NoRepeats(names, AllSamples(results))
  {
    NoSignatureTwiceInCycle(results, pool, replies);
    forall i | 0 <= i < |names|
      ensures DistinctSignatures(ByName(AllSamples(results), names[i]))
    {
      NoSignatureTwiceByName(AllSamples(results), names[i]);
    }
  }
}
