/** The immutable snapshot: an index by metric name over one cycle's flat list of samples. */
module Snapshots {
  import opened Prelude
  import opened Metrics

  datatype ArraySnapshot = ArraySnapshot(
    name: string, up: bool, bulkCapable: bool, scrapeError: string, lastScrape: Option<int>, samples: seq<Sample>)

  datatype Snapshot = Snapshot(
    perArray: map<string, ArraySnapshot>, byName: map<string, seq<Sample>>, names: seq<string>)
  {
    function SamplesByName(name: string): seq<Sample>
    {
      if name in byName then byName[name] else []
    }
  }

  type Results = seq<Option<ArraySnapshot>>

  function SamplesOf(r: Option<ArraySnapshot>): seq<Sample>
  {
    if r.Some? then r.value.samples else []
  }

  /** Every sample of the cycle, array by array. */
  function AllSamples(results: Results): seq<Sample>
  {
    if results == [] then [] else AllSamples(results[..|results| - 1]) + SamplesOf(results[|results| - 1])
  }

  /** The samples with a given name, in their original order. */
  function ByName(samples: seq<Sample>, name: string): seq<Sample>
  {
    if samples == [] then []
    else
      var n := |samples| - 1;
      ByName(samples[..n], name) + if samples[n].name == name then [samples[n]] else []
  }

  /** The last result of an array, if it has one. */
  function LastNamed(results: Results, name: string): Option<ArraySnapshot>
  {
    if results == [] then None
    else
      var n := |results| - 1;
      if results[n].Some? && results[n].value.name == name then results[n] else LastNamed(results[..n], name)
  }

  ghost predicate IndexesSamples(byName: map<string, seq<Sample>>, samples: seq<Sample>)
  {
    forall name :: (if name in byName then byName[name] else []) == ByName(samples, name) &&
                   (name in byName ==> byName[name] != [])
  }

  ghost predicate IndexesArrays(perArray: map<string, ArraySnapshot>, results: Results)
  {
    forall name :: (if name in perArray then Some(perArray[name]) else None) == LastNamed(results, name)
  }

  /** Go maps are ranged over in no particular order, so the order of the names is left open. */
  ghost predicate IsSnapshotOf(snap: Snapshot, results: Results)
  {
    && IndexesArrays(snap.perArray, results)
    && IndexesSamples(snap.byName, AllSamples(results))
    && NoDup(snap.names) && Elems(snap.names) == snap.byName.Keys
  }

  function AddSample(byName: map<string, seq<Sample>>, s: Sample): map<string, seq<Sample>>
  {
    byName[s.name := (if s.name in byName then byName[s.name] else []) + [s]]
  }

  /** The index that appending the samples one by one leads to. */
  function IndexOf(samples: seq<Sample>): map<string, seq<Sample>>
  {
    if samples == [] then map[]
    else AddSample(IndexOf(samples[..|samples| - 1]), samples[|samples| - 1])
  }

  lemma {:induction false} IndexOfIndexes(samples: seq<Sample>)
    ensures IndexesSamples(IndexOf(samples), samples)
  {
    if samples != [] {
      IndexOfIndexes(samples[..|samples| - 1]);
    }
  }

  /** The inner loop: one array's samples are appended to the index. */
  method IndexSamples(byName0: map<string, seq<Sample>>, ghost before: seq<Sample>, samples: seq<Sample>)
    returns (byName: map<string, seq<Sample>>)
    requires byName0 == IndexOf(before)
    ensures byName == IndexOf(before + samples)
  {
    byName := byName0;
    assert before + samples[..0] == before;
    for k := 0 to |samples|
      invariant byName == IndexOf(before + samples[..k])
    {
      assert (before + samples[..k + 1])[..|before| + k] == before + samples[..k];
      byName := AddSample(byName, samples[k]);
    }
    assert samples[..|samples|] == samples;
  }

  method BuildSnapshot(results: Results) returns (snap: Snapshot)
    ensures IsSnapshotOf(snap, results)
  {
    var perArray: map<string, ArraySnapshot>, byName: map<string, seq<Sample>> := map[], map[];
    for i := 0 to |results|
      invariant IndexesArrays(perArray, results[..i])
      invariant byName == IndexOf(AllSamples(results[..i]))
    {
      assert results[..i + 1][..i] == results[..i];
      if results[i].Some? {
        byName := IndexSamples(byName, AllSamples(results[..i]), results[i].value.samples);
        perArray := perArray[results[i].value.name := results[i].value];
      } else {
        assert AllSamples(results[..i + 1]) == AllSamples(results[..i]);
      }
    }
    assert results[..|results|] == results;
    IndexOfIndexes(AllSamples(results));
    var names := KeysInSomeOrder(byName);
    snap := Snapshot(perArray, byName, names);
  }

  method KeysInSomeOrder<T>(m: map<string, T>) returns (keys: seq<string>)
    ensures NoDup(keys) && Elems(keys) == m.Keys
  {
    keys := [];
    var rest := m.Keys;
    while rest != {}
      invariant NoDup(keys) && Elems(keys) + rest == m.Keys && Elems(keys) !! rest
      decreases rest
    {
      var key :| key in rest;
      assert Elems(keys + [key]) == Elems(keys) + {key};
      keys, rest := keys + [key], rest - {key};
    }
  }

  // ---------------------------------------------------------------- what the index means

  /** The samples a snapshot holds under some names, name by name. */
  function Gather(names: seq<string>, samples: seq<Sample>): seq<Sample>
  {
    if names == [] then []
    else
      var n := |names| - 1;
      Gather(names[..n], samples) + ByName(samples, names[n])
  }

  lemma {:induction false} ByNameCount(samples: seq<Sample>, name: string, s: Sample)
    ensures multiset(ByName(samples, name))[s] == if s.name == name then multiset(samples)[s] else 0
  {
    if samples != [] {
      var n := |samples| - 1;
      assert samples == samples[..n] + [samples[n]];
      ByNameCount(samples[..n], name, s);
    }
  }

  lemma {:induction false} GatherCount(names: seq<string>, samples: seq<Sample>, s: Sample)
    requires NoDup(names)
    ensures multiset(Gather(names, samples))[s] == if s.name in names then multiset(samples)[s] else 0
  {
    if names != [] {
      var n := |names| - 1;
      assert names == names[..n] + [names[n]];
      GatherCount(names[..n], samples, s);
      ByNameCount(samples, names[n], s);
    }
  }

  lemma {:induction false} NamedIffGathered(samples: seq<Sample>, name: string)
    ensures ByName(samples, name) != [] <==> exists s :: s in samples && s.name == name
  {
    if samples != [] {
      var n := |samples| - 1;
      assert samples == samples[..n] + [samples[n]];
      NamedIffGathered(samples[..n], name);
    }
  }

  lemma NamePresent(snap: Snapshot, results: Results, s: Sample)
    requires IsSnapshotOf(snap, results) && s in AllSamples(results)
    ensures s.name in snap.names
  {
    NamedIffGathered(AllSamples(results), s.name);
    assert s.name in Elems(snap.names);
  }

  /** Reading every name of a snapshot, and possibly more names, gives back each sample of the
      cycle exactly as often as it was collected. */
  lemma NothingLostByIndexing(snap: Snapshot, results: Results, names: seq<string>)
    requires IsSnapshotOf(snap, results) && NoDup(names) && Elems(snap.names) <= Elems(names)
    ensures multiset(Gather(names, AllSamples(results))) == multiset(AllSamples(results))
    ensures |Gather(names, AllSamples(results))| == |AllSamples(results)|
  {
    var flat := AllSamples(results);
    var gathered := Gather(names, flat);
    forall s
      ensures multiset(gathered)[s] == multiset(flat)[s]
    {
      GatherCount(names, flat, s);
      if s in flat {
        NamePresent(snap, results, s);
        assert s.name in Elems(names);
      }
    }
    SameSize(gathered, flat);
  }

  lemma SameSize<T>(a: seq<T>, b: seq<T>)
    requires multiset(a) == multiset(b)
    ensures |a| == |b|
  {
    assert |multiset(a)| == |a| && |multiset(b)| == |b|;
  }

  /** The name list holds each name that occurs, once, and no other. */
  lemma NamesAreTheOccurringOnes(snap: Snapshot, results: Results, name: string)
    requires IsSnapshotOf(snap, results)
    ensures multiset(snap.names)[name] == if exists s :: s in AllSamples(results) && s.name == name then 1 else 0
  {
    NoDupMultiplicity(snap.names, name);
    NamedIffGathered(AllSamples(results), name);
    assert name in snap.names <==> name in Elems(snap.names);
  }

  /** The samples of a name keep their order. */
  lemma {:induction false} ByNameConcat(a: seq<Sample>, b: seq<Sample>, name: string)
    ensures ByName(a + b, name) == ByName(a, name) + ByName(b, name)
    ensures |a| == 1 ==> ByName(a, name) == if a[0].name == name then a else []
  {
    if |a| == 1 {
      assert ByName(a[..0], name) == [];
    }
    if b == [] {
      assert a + b == a;
    } else {
      var n := |b| - 1;
      assert (a + b)[..|a + b| - 1] == a + b[..n];
      ByNameConcat(a, b[..n], name);
    }
  }

  /** A cycle's samples come array by array, in the order of the results; a slot without a result has none. */
  lemma {:induction false} AllSamplesConcat(a: Results, b: Results)
    ensures AllSamples(a + b) == AllSamples(a) + AllSamples(b)
    ensures |a| == 1 ==> AllSamples(a) == if a[0].Some? then a[0].value.samples else []
  {
    if |a| == 1 {
      assert AllSamples(a[..0]) == [];
    }
    if b == [] {
      assert a + b == a;
    } else {
      var n := |b| - 1;
      assert (a + b)[..|a + b| - 1] == a + b[..n];
      AllSamplesConcat(a, b[..n]);
    }
  }

  /** Result i is the last one of this array. */
  predicate LastResult(results: Results, name: string, i: int)
  {
    && 0 <= i < |results| && results[i].Some? && results[i].value.name == name
    && forall j :: i < j < |results| && results[j].Some? ==> results[j].value.name != name
  }

  /** An array is told by its last result, and one without any result is not in the snapshot. */
  lemma PerArrayIsLast(snap: Snapshot, results: Results, name: string)
    requires IsSnapshotOf(snap, results)
    ensures forall i :: LastResult(results, name, i) ==>
      name in snap.perArray && snap.perArray[name] == results[i].value
    ensures name in snap.perArray ==> exists i :: LastResult(results, name, i)
  {
    LastNamedIsLast(results, name);
  }

  lemma {:induction false} LastNamedIsLast(results: Results, name: string)
    ensures forall i :: LastResult(results, name, i) ==> LastNamed(results, name) == results[i]
    ensures LastNamed(results, name).Some? ==> exists i :: LastResult(results, name, i)
  {
    if results != [] {
      var n := |results| - 1;
      LastNamedIsLast(results[..n], name);
      if results[n].Some? && results[n].value.name == name {
        assert LastResult(results, name, n);
      } else {
        assert forall i :: LastResult(results, name, i) <==> LastResult(results[..n], name, i);
      }
    }
  }

  /** No two results are for the same array. */
  predicate DistinctArrays(results: Results)
  {
    forall i, j :: 0 <= i < j < |results| && results[i].Some? && results[j].Some? ==>
      results[i].value.name != results[j].value.name
  }

  /** One metric's samples, read array by array through PerArray. */
  function ThroughPerArray(perArray: map<string, ArraySnapshot>, results: Results, name: string): seq<Sample>
  {
    if results == [] then []
    else
      var r := results[|results| - 1];
      ThroughPerArray(perArray, results[..|results| - 1], name) +
      if r.Some? && r.value.name in perArray then ByName(perArray[r.value.name].samples, name) else []
  }

  lemma {:induction false} LastNamedUnique(results: Results, i: nat)
    requires DistinctArrays(results) && i < |results| && results[i].Some?
    ensures LastNamed(results, results[i].value.name) == results[i]
  {
    var n := |results| - 1;
    if i < n {
      LastNamedUnique(results[..n], i);
    }
  }

  lemma {:induction false} ThroughPerArrayIs(perArray: map<string, ArraySnapshot>, results: Results, k: nat,
                                             name: string)
    requires DistinctArrays(results) && IndexesArrays(perArray, results) && k <= |results|
    ensures ThroughPerArray(perArray, results[..k], name) == ByName(AllSamples(results[..k]), name)
  {
    if k > 0 {
      var r := results[k - 1];
      assert results[..k][..k - 1] == results[..k - 1];
      ThroughPerArrayIs(perArray, results, k - 1, name);
      ByNameConcat(AllSamples(results[..k - 1]), SamplesOf(r), name);
      if r.Some? {
        LastNamedUnique(results, k - 1);
      }
    }
  }

  /** With distinct array names the two views of a snapshot hold the same samples. */
  lemma PerArrayAgreesWithIndex(snap: Snapshot, results: Results, name: string)
    requires IsSnapshotOf(snap, results) && DistinctArrays(results)
    ensures snap.SamplesByName(name) == ThroughPerArray(snap.perArray, results, name)
  {
    ThroughPerArrayIs(snap.perArray, results, |results|, name);
    assert results[..|results|] == results;
  }
}
