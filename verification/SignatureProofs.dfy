/** When the NUL-joined signature tells label tuples apart. */
module SignatureProofs {
  import opened Prelude
  import opened Metrics
  import opened Snapshots
  import opened Pull
  import opened PullProofs

  predicate NulFree(value: string)
  {
    '\0' !in value
  }

  predicate AllNulFree(values: seq<string>)
  {
    forall i :: 0 <= i < |values| ==> NulFree(values[i])
  }

  /** Two strings cut at their first NUL. */
  lemma CutAtNul(a: string, restA: string, b: string, restB: string)
    requires NulFree(a) && NulFree(b) && a + [NUL] + restA == b + [NUL] + restB
    ensures a == b && restA == restB
  {
    var s, t := a + [NUL] + restA, b + [NUL] + restB;
    assert s[|a|] == NUL && t[|b|] == NUL;
    assert forall k :: 0 <= k < |a| ==> s[k] == a[k] && a[k] != NUL;
    assert forall k :: 0 <= k < |b| ==> t[k] == b[k] && b[k] != NUL;
    assert a == s[..|a|] && b == t[..|b|];
    assert restA == s[|a| + 1..] && restB == t[|b| + 1..];
  }

  lemma {:induction false} JoinInjective(a: seq<string>, b: seq<string>)
    requires |a| == |b| && AllNulFree(a) && AllNulFree(b) && Join(a) == Join(b)
    ensures a == b
  {
    if |a| == 1 {
      assert a == [a[0]] && b == [b[0]];
    } else if |a| > 1 {
      CutAtNul(a[0], Join(a[1..]), b[0], Join(b[1..]));
      JoinInjective(a[1..], b[1..]);
      assert a == [a[0]] + a[1..] && b == [b[0]] + b[1..];
    }
  }

  predicate NulFreeSamples(samples: seq<Sample>)
  {
    forall i :: 0 <= i < |samples| ==> AllNulFree(LabelValues(samples[i].labels))
  }

  lemma SameSignatureSameJoin(s: Sample, t: Sample)
    requires s.name == t.name && Signature(s) == Signature(t)
    ensures Join(LabelValues(s.labels)) == Join(LabelValues(t.labels))
  {
    var n := |s.name| + 1;
    assert Signature(s)[n..] == Join(LabelValues(s.labels));
    assert Signature(t)[n..] == Join(LabelValues(t.labels));
  }

  /** One metric's NUL-free samples with the same number of labels have faithful signatures. */
  lemma NulFreeIsFaithful(samples: seq<Sample>, name: string)
    requires Named(samples, name) && UniformArity(samples) && NulFreeSamples(samples)
    ensures Faithful(samples)
  {
    forall i, j | 0 <= i < |samples| && 0 <= j < |samples| && Signature(samples[i]) == Signature(samples[j])
      ensures LabelValues(samples[i].labels) == LabelValues(samples[j].labels)
    {
      SameSignatureSameJoin(samples[i], samples[j]);
      JoinInjective(LabelValues(samples[i].labels), LabelValues(samples[j].labels));
    }
  }

  lemma JoinTwo(a: string, b: string)
    ensures Join([a, b]) == a + [NUL] + b
  {
    assert [a, b][1..] == [b];
  }

  /** A NUL inside a value can hide a series: two samples, two tuples, one signature. */
  lemma NulCanHideSeries(name: string, value: real)
    ensures var s := Sample(name, [Label("array", "a" + ['\0'] + "b"), Label("cluster_id", "c")], value);
      var t := Sample(name, [Label("array", "a"), Label("cluster_id", "b" + ['\0'] + "c")], value);
      Signature(s) == Signature(t) && LabelValues(s.labels) != LabelValues(t.labels) && !AllTuplesEmitted([s, t])
  {
    var s := Sample(name, [Label("array", "a" + [NUL] + "b"), Label("cluster_id", "c")], value);
    var t := Sample(name, [Label("array", "a"), Label("cluster_id", "b" + [NUL] + "c")], value);
    var vs, vt := LabelValues(s.labels), LabelValues(t.labels);
    assert vs == ["a" + [NUL] + "b", "c"] && vt == ["a", "b" + [NUL] + "c"];
    JoinTwo(vs[0], vs[1]);
    JoinTwo(vt[0], vt[1]);
    assert Join(vs) == ['a', NUL, 'b', NUL, 'c'] && Join(vt) == ['a', NUL, 'b', NUL, 'c'];
    assert |vs[0]| != |vt[0]|;
    var both := [s, t];
    assert both[0] == s && both[1] == t && !Faithful(both);
    AllTuplesEmittedIff(both, name);
  }

  lemma NulInside(head: string, rest: string)
    ensures NUL in head + [NUL] + rest
  {
    assert (head + [NUL] + rest)[|head|] == NUL;
  }

  /** Samples whose first label values differ never share a signature, whatever follows: with
      distinct, NUL-free array names no array's sample suppresses another array's. */
  lemma ArraysNeverSuppress(s: Sample, t: Sample)
    requires s.name == t.name && s.labels != [] && t.labels != []
    requires NulFree(s.labels[0].value) && NulFree(t.labels[0].value) && s.labels[0].value != t.labels[0].value
    ensures Signature(s) != Signature(t)
  {
    if Signature(s) == Signature(t) {
      SameSignatureSameJoin(s, t);
      var a, b := LabelValues(s.labels), LabelValues(t.labels);
      if |a| > 1 && |b| > 1 {
        CutAtNul(a[0], Join(a[1..]), b[0], Join(b[1..]));
      } else if |a| > 1 {
        NulInside(a[0], Join(a[1..]));
      } else if |b| > 1 {
        NulInside(b[0], Join(b[1..]));
      }
    }
  }

  // ---------------------------------------------------------------- the whole exposition

  datatype Series = Series(name: string, values: seq<string>)

  function SeriesOf(out: seq<Metric>): (series: seq<Series>)
    ensures |series| == |out|
  {
    seq(|out|, i requires 0 <= i < |out| => Series(out[i].name, out[i].values))
  }

  predicate NoSeriesTwice(out: seq<Metric>)
  {
    NoDup(SeriesOf(out))
  }

  lemma SeriesConcat(a: seq<Metric>, b: seq<Metric>)
    requires NoSeriesTwice(a) && NoSeriesTwice(b)
    requires forall m, k :: m in a && k in b ==> m.name != k.name || m.values != k.values
    ensures NoSeriesTwice(a + b)
  {
    var c := SeriesOf(a + b);
    assert c == SeriesOf(a) + SeriesOf(b);
    forall i, j | 0 <= i < j < |c|
      ensures c[i] != c[j]
    {
      if i < |a| <= j {
        assert a[i] in a && b[j - |a|] in b;
      }
    }
  }

  predicate HealthName(name: string)
  {
    name == UP || name == LAST_SCRAPE || name == BULK_API
  }

  lemma HealthNamesDiffer()
    ensures UP != LAST_SCRAPE && UP != BULK_API && LAST_SCRAPE != BULK_API
  {
    assert UP[11] == 'u' && LAST_SCRAPE[11] == 'l' && BULK_API[11] == 'a';
  }

  lemma OneArrayHealth(name: string, a: ArraySnapshot)
    ensures NoSeriesTwice(HealthOf(name, a))
    ensures forall m :: m in HealthOf(name, a) ==> HealthName(m.name) && m.values == [name]
  {
    HealthNamesDiffer();
  }

  lemma {:induction false} HealthNoSeriesTwice(perArray: map<string, ArraySnapshot>, order: seq<string>)
    requires Elems(order) <= perArray.Keys && NoDup(order)
    ensures NoSeriesTwice(Health(perArray, order))
    ensures forall m :: m in Health(perArray, order) ==> HealthName(m.name) && |m.values| == 1 && m.values[0] in order
  {
    if order != [] {
      var n := |order| - 1;
      assert order[n] in Elems(order) && Elems(order[..n]) <= Elems(order);
      HealthNoSeriesTwice(perArray, order[..n]);
      OneArrayHealth(order[n], perArray[order[n]]);
      var rest, mine := Health(perArray, order[..n]), HealthOf(order[n], perArray[order[n]]);
      assert order[n] !in order[..n];
      SeriesConcat(rest, mine);
    }
  }

  lemma {:induction false} SamplesNoSeriesTwice(snap: Snapshot, names: seq<string>)
    requires FiledByName(snap) && NoDup(names)
    ensures NoSeriesTwice(EmittedAll(snap, names))
    ensures forall m :: m in EmittedAll(snap, names) ==> m.name in names
  {
    if names != [] {
      var n := |names| - 1;
      SamplesNoSeriesTwice(snap, names[..n]);
      var samples := snap.SamplesByName(names[n]);
      assert forall i :: 0 <= i < |samples| ==> samples[i] in samples;
      NoTupleTwice(samples, names[n]);
      EmittedNamed(samples, names[n]);
      assert NoSeriesTwice(Emitted(samples)) by {
        assert forall i :: 0 <= i < |Emitted(samples)| ==>
          SeriesOf(Emitted(samples))[i].values == Emitted(samples)[i].values;
      }
      assert names[n] !in names[..n];
      SeriesConcat(EmittedAll(snap, names[..n]), Emitted(samples));
    }
  }

  lemma EmittedNamed(samples: seq<Sample>, name: string)
    requires Named(samples, name)
    ensures forall m :: m in Emitted(samples) ==> m.name == name
  {
    if samples != [] {
      FirstsKeepSignatures(samples);
      forall k: nat | k < |FirstsOf(samples)|
        ensures FirstsOf(samples)[k].name == name
      {
        var i := FirstsAreFirst(samples, k);
      }
      ConstMetricsDistinct(LabelNames(samples[0].labels), FirstsOf(samples), name);
    }
  }

  /** A scrape never contains the same series twice, unless a collected metric takes the name of
      one of the exporter's own health metrics. */
  lemma CollectNeverRepeats(snap: Snapshot, out: seq<Metric>)
    requires FiledByName(snap) && NoDup(snap.names) && IsScrape(out, snap)
    requires forall name :: name in snap.names ==> !HealthName(name)
    ensures NoSeriesTwice(out)
  {
    var health :| IsHealth(health, snap.perArray) && out == health + EmittedAll(snap, snap.names);
    var order :| NoDup(order) && Elems(order) == snap.perArray.Keys && health == Health(snap.perArray, order);
    HealthNoSeriesTwice(snap.perArray, order);
    SamplesNoSeriesTwice(snap, snap.names);
    SeriesConcat(Health(snap.perArray, order), EmittedAll(snap, snap.names));
  }

  // ---------------------------------------------------------------- what the health metrics say

  function OneIf(b: bool): real
  {
    if b then 1.0 else 0.0
  }

  /** A health metric that this array calls for: whether it is up, whether it can export in bulk, and the time of
      its last scrape if it is up and has one. */
  predicate ToldBy(m: Metric, name: string, a: ArraySnapshot)
  {
    && m.labelNames == ["array"] && m.values == [name]
    && (|| (m.name == "powerstore_up" && m.value == OneIf(a.up))
        || (m.name == "powerstore_array_bulk_api" && m.value == OneIf(a.bulkCapable))
        || (m.name == "powerstore_last_scrape_timestamp_seconds" && a.up && a.lastScrape.Some? &&
            m.value == a.lastScrape.value as real))
  }

  lemma HealthOfTells(name: string, a: ArraySnapshot, m: Metric)
    ensures m in HealthOf(name, a) <==> ToldBy(m, name, a)
  {
    var up := Metric("powerstore_up", ["array"], [name], OneIf(a.up));
    var bulk := Metric("powerstore_array_bulk_api", ["array"], [name], OneIf(a.bulkCapable));
    assert HealthOf(name, a)[0] == up && HealthOf(name, a)[|HealthOf(name, a)| - 1] == bulk;
    if a.up && a.lastScrape.Some? {
      assert HealthOf(name, a)[1] ==
             Metric("powerstore_last_scrape_timestamp_seconds", ["array"], [name], a.lastScrape.value as real);
    }
  }

  lemma {:induction false} HealthTells(perArray: map<string, ArraySnapshot>, order: seq<string>, m: Metric)
    requires Elems(order) <= perArray.Keys
    ensures m in Health(perArray, order) <==> exists name :: name in order && ToldBy(m, name, perArray[name])
  {
    if order != [] {
      var n := |order| - 1;
      assert order[n] in Elems(order) && Elems(order[..n]) <= Elems(order);
      assert forall name :: name in order <==> name in order[..n] || name == order[n];
      HealthTells(perArray, order[..n], m);
      HealthOfTells(order[n], perArray[order[n]], m);
    }
  }

  ghost predicate ToldBySome(m: Metric, perArray: map<string, ArraySnapshot>)
  {
    exists name :: name in perArray && ToldBy(m, name, perArray[name])
  }

  /** The health metrics of a scrape are exactly those its arrays call for, each once. */
  lemma HealthIsTold(snap: Snapshot, out: seq<Metric>)
    requires FiledByName(snap) && NoDup(snap.names) && IsScrape(out, snap)
    requires forall name :: name in snap.names ==> !HealthName(name)
    ensures forall m: Metric :: HealthName(m.name) ==> (m in out <==> ToldBySome(m, snap.perArray))
    ensures NoSeriesTwice(out)
  {
    CollectNeverRepeats(snap, out);
    SamplesNoSeriesTwice(snap, snap.names);
    var health :| IsHealth(health, snap.perArray) && out == health + EmittedAll(snap, snap.names);
    var order :| NoDup(order) && Elems(order) == snap.perArray.Keys && health == Health(snap.perArray, order);
    forall m: Metric | HealthName(m.name)
      ensures m in out <==> ToldBySome(m, snap.perArray)
    {
      HealthTells(snap.perArray, order, m);
      assert forall name :: name in order <==> name in Elems(order);
    }
  }
}
