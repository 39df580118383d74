/** The pull path: PromCollector.Collect with its NUL-joined signatures (prometheus.go). */
module Pull {
  import opened Prelude
  import opened Metrics
  import opened Snapshots

  /** One exposed series with its value. */
  datatype Metric = Metric(name: string, labelNames: seq<string>, values: seq<string>, value: real)

  const NUL: char := '\0'

  /** strings.Join with a NUL between the values. */
  function Join(values: seq<string>): string
  {
    if values == [] then ""
    else if |values| == 1 then values[0]
    else values[0] + [NUL] + Join(values[1..])
  }

  function Signature(s: Sample): string
  {
    s.name + [NUL] + Join(LabelValues(s.labels))
  }

  function Signatures(samples: seq<Sample>): set<string>
  {
    set i | 0 <= i < |samples| :: Signature(samples[i])
  }

  /** The samples whose signature has not occurred before them. */
  function FirstsOf(samples: seq<Sample>): seq<Sample>
  {
    if samples == [] then []
    else
      var n := |samples| - 1;
      FirstsOf(samples[..n]) + if Signature(samples[n]) in Signatures(samples[..n]) then [] else [samples[n]]
  }

  function AsMetric(labelNames: seq<string>, s: Sample): Metric
  {
    Metric(s.name, labelNames, LabelValues(s.labels), s.value)
  }

  /** NewConstMetric under a descriptor with these label names: an error unless the arities agree. */
  function ConstMetrics(labelNames: seq<string>, samples: seq<Sample>): seq<Metric>
  {
    if samples == [] then []
    else
      var n := |samples| - 1;
      var s := samples[n];
      ConstMetrics(labelNames, samples[..n]) +
      if |s.labels| == |labelNames| then [AsMetric(labelNames, s)] else []
  }

  /** What one metric name contributes; the first sample names the labels for all of them. */
  function Emitted(samples: seq<Sample>): seq<Metric>
  {
    if samples == [] then [] else ConstMetrics(LabelNames(samples[0].labels), FirstsOf(samples))
  }

  lemma FirstsSnoc(samples: seq<Sample>, i: nat)
    requires i < |samples|
    ensures Signatures(samples[..i + 1]) == Signatures(samples[..i]) + {Signature(samples[i])}
    ensures FirstsOf(samples[..i + 1]) ==
      FirstsOf(samples[..i]) + if Signature(samples[i]) in Signatures(samples[..i]) then [] else [samples[i]]
  {
    assert samples[..i + 1][..i] == samples[..i];
  }

  lemma ConstMetricsSnoc(labelNames: seq<string>, firsts: seq<Sample>, s: Sample)
    ensures ConstMetrics(labelNames, firsts + [s]) == ConstMetrics(labelNames, firsts) +
      if |s.labels| == |labelNames| then [AsMetric(labelNames, s)] else []
  {
    assert (firsts + [s])[..|firsts|] == firsts;
  }

  method CollectName(name: string, samples: seq<Sample>) returns (out: seq<Metric>)
    requires forall s :: s in samples ==> s.name == name
    ensures out == Emitted(samples)
  {
    out := [];
    if samples == [] {
      return;
    }
    var labelNames := LabelNames(samples[0].labels);
    var seen: set<string> := {};
    ghost var firsts: seq<Sample> := [];
    for i := 0 to |samples|
      invariant seen == Signatures(samples[..i])
      invariant firsts == FirstsOf(samples[..i])
      invariant out == ConstMetrics(labelNames, firsts)
    {
      var s := samples[i];
      var values := LabelValues(s.labels);
      var sig := name + [NUL] + Join(values);
      assert s in samples;
      FirstsSnoc(samples, i);
      if sig !in seen {
        seen := seen + {sig};
        ConstMetricsSnoc(labelNames, firsts, s);
        firsts := firsts + [s];
        if |values| == |labelNames| {
          out := out + [Metric(name, labelNames, values, s.value)];
        }
      }
    }
    assert samples[..|samples|] == samples;
  }

  const UP := "powerstore_up"
  const LAST_SCRAPE := "powerstore_last_scrape_timestamp_seconds"
  const BULK_API := "powerstore_array_bulk_api"

  function HealthOf(name: string, a: ArraySnapshot): seq<Metric>
  {
    [Metric(UP, ["array"], [name], B2F(a.up))]
    + (if a.up && a.lastScrape.Some? then [Metric(LAST_SCRAPE, ["array"], [name], a.lastScrape.value as real)] else [])
    + [Metric(BULK_API, ["array"], [name], B2F(a.bulkCapable))]
  }

  function Health(perArray: map<string, ArraySnapshot>, order: seq<string>): seq<Metric>
    requires Elems(order) <= perArray.Keys
  {
    if order == [] then []
    else
      var n := |order| - 1;
      assert order[n] in Elems(order) && Elems(order[..n]) <= Elems(order);
      Health(perArray, order[..n]) + HealthOf(order[n], perArray[order[n]])
  }

  function EmittedAll(snap: Snapshot, names: seq<string>): seq<Metric>
  {
    if names == [] then []
    else EmittedAll(snap, names[..|names| - 1]) + Emitted(snap.SamplesByName(names[|names| - 1]))
  }

  /** Every sample is filed under its own name. */
  ghost predicate FiledByName(snap: Snapshot)
  {
    forall name, s :: s in snap.SamplesByName(name) ==> s.name == name
  }

  /** The arrays of a Go map come in an order the caller cannot rely on. */
  ghost predicate IsHealth(out: seq<Metric>, perArray: map<string, ArraySnapshot>)
  {
    exists order :: NoDup(order) && Elems(order) == perArray.Keys && out == Health(perArray, order)
  }

  method CollectHealth(perArray: map<string, ArraySnapshot>) returns (out: seq<Metric>)
    ensures IsHealth(out, perArray)
  {
    var arrays := KeysInSomeOrder(perArray);
    out := [];
    for i := 0 to |arrays|
      invariant Elems(arrays[..i]) <= perArray.Keys && out == Health(perArray, arrays[..i])
    {
      assert arrays[..i + 1][..i] == arrays[..i] && arrays[i] in Elems(arrays);
      assert Elems(arrays[..i + 1]) == Elems(arrays[..i]) + {arrays[i]};
      out := out + HealthOf(arrays[i], perArray[arrays[i]]);
    }
    assert arrays[..|arrays|] == arrays;
  }

  method CollectSamples(snap: Snapshot) returns (out: seq<Metric>)
    requires FiledByName(snap)
    ensures out == EmittedAll(snap, snap.names)
  {
    out := [];
    for k := 0 to |snap.names|
      invariant out == EmittedAll(snap, snap.names[..k])
    {
      assert snap.names[..k + 1][..k] == snap.names[..k];
      var more := CollectName(snap.names[k], snap.SamplesByName(snap.names[k]));
      out := out + more;
    }
    assert snap.names[..|snap.names|] == snap.names;
  }

  /** A whole scrape. */
  ghost predicate IsScrape(out: seq<Metric>, snap: Snapshot)
  {
    exists health :: IsHealth(health, snap.perArray) && out == health + EmittedAll(snap, snap.names)
  }

  method Collect(snap: Snapshot) returns (out: seq<Metric>)
    requires FiledByName(snap)
    ensures IsScrape(out, snap)
  {
    var health := CollectHealth(snap.perArray);
    var samples := CollectSamples(snap);
    out := health + samples;
  }
}
