/** Push against pull: on one snapshot the gauges observe exactly the samples a scrape shows,
    if and only if no metric repeats a signature. */
module ExportParity {
  import opened Prelude
  import opened Metrics
  import opened Snapshots
  import opened Pull
  import opened PullProofs
  import opened Push

  /** Samples that share a name share their label names. */
  predicate UniformKeys(samples: seq<Sample>)
  {
    forall i, j :: 0 <= i < |samples| && 0 <= j < |samples| && samples[i].name == samples[j].name ==>
      LabelNames(samples[i].labels) == LabelNames(samples[j].labels)
  }

  /** Read back as a sample, a metric pairs each label name with its value. */
  function Relabel(m: Metric): Sample
  {
    var n := if |m.labelNames| <= |m.values| then |m.labelNames| else |m.values|;
    Sample(m.name, seq(n, i requires 0 <= i < n => Label(m.labelNames[i], m.values[i])), m.value)
  }

  function Shown(out: seq<Metric>): (shown: seq<Sample>)
    ensures |shown| == |out|
  {
    seq(|out|, i requires 0 <= i < |out| => Relabel(out[i]))
  }

  lemma RelabelOwn(labelNames: seq<string>, s: Sample)
    requires labelNames == LabelNames(s.labels)
    ensures Relabel(AsMetric(labelNames, s)) == s
  {
    var labels := Relabel(AsMetric(labelNames, s)).labels;
    assert |labels| == |s.labels|;
    assert forall i :: 0 <= i < |labels| ==> labels[i] == s.labels[i];
  }

  lemma {:induction false} FirstsLength(samples: seq<Sample>)
    ensures |FirstsOf(samples)| <= |samples|
    ensures |FirstsOf(samples)| == |samples| ==> FirstsOf(samples) == samples && DistinctSignatures(samples)
  {
    if samples != [] {
      var n := |samples| - 1;
      FirstsLength(samples[..n]);
      FirstsKeepSignatures(samples);
      assert samples == samples[..n] + [samples[n]];
    }
  }

  lemma {:induction false} DistinctKeepsAll(samples: seq<Sample>)
    requires DistinctSignatures(samples)
    ensures FirstsOf(samples) == samples
  {
    if samples != [] {
      var n := |samples| - 1;
      DistinctKeepsAll(samples[..n]);
      assert Signature(samples[n]) !in Signatures(samples[..n]);
      assert samples == samples[..n] + [samples[n]];
    }
  }

  lemma ShownOfDistinct(samples: seq<Sample>, name: string)
    requires Named(samples, name) && UniformKeys(samples) && DistinctSignatures(samples)
    ensures Shown(Emitted(samples)) == samples
  {
    if samples != [] {
      var labelNames := LabelNames(samples[0].labels);
      forall i | 0 <= i < |samples|
        ensures LabelNames(samples[i].labels) == labelNames && |samples[i].labels| == |labelNames|
      {
        assert |LabelNames(samples[i].labels)| == |samples[i].labels|;
      }
      DistinctKeepsAll(samples);
      EmittedAt(samples);
      forall i | 0 <= i < |samples|
        ensures Shown(Emitted(samples))[i] == samples[i]
      {
        RelabelOwn(labelNames, samples[i]);
      }
    }
  }

  /** No metric name has two samples with one signature. */
  predicate NoRepeats(names: seq<string>, samples: seq<Sample>)
  {
    forall i :: 0 <= i < |names| ==> DistinctSignatures(ByName(samples, names[i]))
  }

  lemma {:induction false} ByNameKeeps(samples: seq<Sample>, name: string)
    ensures forall s :: s in ByName(samples, name) ==> s.name == name && s in samples
  {
    if samples != [] {
      ByNameKeeps(samples[..|samples| - 1], name);
    }
  }

  lemma ByNameUniform(samples: seq<Sample>, name: string)
    requires UniformKeys(samples)
    ensures Named(ByName(samples, name), name)
    ensures UniformKeys(ByName(samples, name)) && UniformArity(ByName(samples, name))
  {
    var mine := ByName(samples, name);
    ByNameKeeps(samples, name);
    forall i, j | 0 <= i < |mine| && 0 <= j < |mine|
      ensures mine[i].name == name && LabelNames(mine[i].labels) == LabelNames(mine[j].labels)
      ensures |mine[i].labels| == |mine[j].labels|
    {
      assert mine[i] in mine && mine[j] in mine;
      assert |LabelNames(mine[i].labels)| == |mine[i].labels| && |LabelNames(mine[j].labels)| == |mine[j].labels|;
    }
  }

  /** What a scrape emits, computed from the flat list of samples. */
  function GatherMetrics(names: seq<string>, samples: seq<Sample>): seq<Metric>
  {
    if names == [] then []
    else
      var n := |names| - 1;
      GatherMetrics(names[..n], samples) + Emitted(ByName(samples, names[n]))
  }

  lemma LookupIsFilter(snap: Snapshot, results: Results, name: string)
    requires IsSnapshotOf(snap, results)
    ensures snap.SamplesByName(name) == ByName(AllSamples(results), name)
  {
  }

  lemma {:induction false} EmittedIsGathered(snap: Snapshot, results: Results, names: seq<string>)
    requires IsSnapshotOf(snap, results)
    ensures EmittedAll(snap, names) == GatherMetrics(names, AllSamples(results))
  {
    if names != [] {
      EmittedIsGathered(snap, results, names[..|names| - 1]);
      LookupIsFilter(snap, results, names[|names| - 1]);
    }
  }

  lemma {:induction false} ObservedIsGathered(snap: Snapshot, results: Results, instruments: seq<string>)
    requires IsSnapshotOf(snap, results)
    ensures Observed(snap, instruments) == Gather(instruments, AllSamples(results))
  {
    if instruments != [] {
      ObservedIsGathered(snap, results, instruments[..|instruments| - 1]);
      LookupIsFilter(snap, results, instruments[|instruments| - 1]);
    }
  }

  lemma ShownConcat(a: seq<Metric>, b: seq<Metric>)
    ensures Shown(a + b) == Shown(a) + Shown(b)
  {
  }

  lemma {:induction false} ShownOfAll(names: seq<string>, samples: seq<Sample>)
    requires UniformKeys(samples) && NoRepeats(names, samples)
    ensures Shown(GatherMetrics(names, samples)) == Gather(names, samples)
  {
    if names != [] {
      var n := |names| - 1;
      ShownOfAll(names[..n], samples);
      ByNameUniform(samples, names[n]);
      ShownOfDistinct(ByName(samples, names[n]), names[n]);
      ShownConcat(GatherMetrics(names[..n], samples), Emitted(ByName(samples, names[n])));
    }
  }

  lemma EmittedLength(samples: seq<Sample>)
    requires UniformArity(samples)
    ensures |Emitted(samples)| <= |samples|
    ensures |Emitted(samples)| == |samples| ==> DistinctSignatures(samples)
  {
    EmittedAt(samples);
    FirstsLength(samples);
  }

  lemma NoRepeatsSnoc(names: seq<string>, samples: seq<Sample>)
    requires names != [] && NoRepeats(names[..|names| - 1], samples)
    requires DistinctSignatures(ByName(samples, names[|names| - 1]))
    ensures NoRepeats(names, samples)
  {
    forall i | 0 <= i < |names|
      ensures DistinctSignatures(ByName(samples, names[i]))
    {
      if i < |names| - 1 {
        assert names[..|names| - 1][i] == names[i];
      }
    }
  }

  lemma {:induction false} FullLengthNoRepeats(names: seq<string>, samples: seq<Sample>)
    requires UniformKeys(samples)
    ensures |GatherMetrics(names, samples)| <= |Gather(names, samples)|
    ensures |GatherMetrics(names, samples)| == |Gather(names, samples)| ==> NoRepeats(names, samples)
  {
    if names != [] {
      var n := |names| - 1;
      FullLengthNoRepeats(names[..n], samples);
      ByNameUniform(samples, names[n]);
      EmittedLength(ByName(samples, names[n]));
      if |GatherMetrics(names, samples)| == |Gather(names, samples)| {
        NoRepeatsSnoc(names, samples);
      }
    }
  }

  /** Once every name of the snapshot has a gauge, push and pull show the same samples, equally
      often, if and only if no metric name repeats a signature. */
  lemma PushPullAgreeIff(snap: Snapshot, results: Results, instruments: seq<string>)
    requires IsSnapshotOf(snap, results) && UniformKeys(AllSamples(results))
    requires NoDup(instruments) && Elems(snap.names) <= Elems(instruments)
    ensures multiset(Shown(EmittedAll(snap, snap.names))) == multiset(Observed(snap, instruments))
      <==> NoRepeats(snap.names, AllSamples(results))
  {
    var flat := AllSamples(results);
    var shown := Shown(EmittedAll(snap, snap.names));
    ObservedIsGathered(snap, results, instruments);
    EmittedIsGathered(snap, results, snap.names);
    NothingLostByIndexing(snap, results, instruments);
    NothingLostByIndexing(snap, results, snap.names);
    if NoRepeats(snap.names, flat) {
      ShownOfAll(snap.names, flat);
    } else {
      FullLengthNoRepeats(snap.names, flat);
      if multiset(shown) == multiset(Observed(snap, instruments)) {
        SameSize(shown, Observed(snap, instruments));
      }
    }
  }

  /** A snapshot files every sample under its own name. */
  lemma SnapshotFiledByName(snap: Snapshot, results: Results)
    requires IsSnapshotOf(snap, results)
    ensures FiledByName(snap)
  {
    forall name, s | s in snap.SamplesByName(name)
      ensures s.name == name
    {
      ByNameKeeps(AllSamples(results), name);
    }
  }
}
