/** The per-entity derivations (derive_perentity.go): the newest response of each volume and
    appliance becomes eight samples. */
module PerEntity {
  import opened Prelude
  import opened Metrics
  import opened Topologies
  import opened Blocks
  import opened Snapshots

  datatype VolumePerf = VolumePerf(
    volumeId: string, readIops: real, writeIops: real, totalIops: real, readBandwidth: real, writeBandwidth: real,
    avgReadLatency: real, avgWriteLatency: real, avgIoSize: real)

  datatype AppliancePerf = AppliancePerf(
    applianceId: string, readIops: real, writeIops: real, totalIops: real, readBandwidth: real, writeBandwidth: real,
    avgReadLatency: real, avgWriteLatency: real, ioWorkloadCpuUtilization: real)

  datatype ApplianceSpace = ApplianceSpace(
    applianceId: string, physicalTotal: Option<int>, physicalUsed: Option<int>, logicalProvisioned: Option<int>,
    logicalUsed: Option<int>, dataReduction: real, efficiencyRatio: real, snapshotSavings: real, thinSavings: real)

  const VOLUME_NAMES := EightNames(
    VOLUME + "read_iops", VOLUME + "write_iops", VOLUME + "total_iops",
    VOLUME + "read_bandwidth_bytes_per_second", VOLUME + "write_bandwidth_bytes_per_second",
    VOLUME + "read_latency_microseconds", VOLUME + "write_latency_microseconds",
    VOLUME + "avg_io_size_bytes")

  const APPLIANCE_NAMES := EightNames(
    APPLIANCE + "read_iops", APPLIANCE + "write_iops", APPLIANCE + "total_iops",
    APPLIANCE + "read_bandwidth_bytes_per_second", APPLIANCE + "write_bandwidth_bytes_per_second",
    APPLIANCE + "read_latency_microseconds", APPLIANCE + "write_latency_microseconds",
    APPLIANCE + "io_workload_cpu_utilization")

  const SPACE_NAMES := EightNames(
    APPLIANCE + "physical_total_bytes", APPLIANCE + "physical_used_bytes",
    APPLIANCE + "logical_provisioned_bytes", APPLIANCE + "logical_used_bytes",
    APPLIANCE + "data_reduction_ratio", APPLIANCE + "efficiency_ratio",
    APPLIANCE + "snapshot_savings_ratio", APPLIANCE + "thin_savings_ratio")

  /** Names of different lengths are different; the few of equal length differ in one letter. */
  lemma NamesDiffer()
    ensures VOLUME_NAMES.Distinct() && APPLIANCE_NAMES.Distinct() && SPACE_NAMES.Distinct()
  {
    assert VOLUME_NAMES.n1[18] != VOLUME_NAMES.n2[18];
    assert APPLIANCE_NAMES.n1[21] != APPLIANCE_NAMES.n2[21];
    assert SPACE_NAMES.n0[21] != SPACE_NAMES.n4[21];
    assert SPACE_NAMES.n3[21] != SPACE_NAMES.n7[21];
  }

  lemma VolumeFamily()
    ensures VOLUME_NAMES.AllIn(Family.Volume)
  {
    VolumeName("read_iops"); VolumeName("write_iops"); VolumeName("total_iops"); VolumeName("avg_io_size_bytes");
    VolumeName("read_bandwidth_bytes_per_second"); VolumeName("write_bandwidth_bytes_per_second");
    VolumeName("read_latency_microseconds"); VolumeName("write_latency_microseconds");
  }

  lemma ApplianceFamily()
    ensures APPLIANCE_NAMES.AllIn(Family.Appliance)
  {
    ApplianceName("read_iops"); ApplianceName("write_iops"); ApplianceName("total_iops");
    ApplianceName("read_bandwidth_bytes_per_second"); ApplianceName("write_bandwidth_bytes_per_second");
    ApplianceName("read_latency_microseconds"); ApplianceName("write_latency_microseconds");
    ApplianceName("io_workload_cpu_utilization");
  }

  lemma SpaceFamily()
    ensures SPACE_NAMES.AllIn(Family.Appliance)
  {
    ApplianceName("physical_total_bytes"); ApplianceName("physical_used_bytes");
    ApplianceName("logical_provisioned_bytes"); ApplianceName("logical_used_bytes");
    ApplianceName("data_reduction_ratio"); ApplianceName("efficiency_ratio");
    ApplianceName("snapshot_savings_ratio"); ApplianceName("thin_savings_ratio");
  }

  function Deref(p: Option<int>): real
  {
    if p.Some? then p.value as real else 0.0
  }

  // ---------------------------------------------------------------- newest per id

  function LatestById<V>(items: seq<V>, key: V -> string): map<string, V>
  {
    if items == [] then map[]
    else
      var n := |items| - 1;
      LatestById(items[..n], key)[key(items[n]) := items[n]]
  }

  /** Item i is the last one with this id. */
  predicate LastWith<V>(items: seq<V>, key: V -> string, id: string, i: int)
  {
    0 <= i < |items| && key(items[i]) == id && forall j :: i < j < |items| ==> key(items[j]) != id
  }

  /** Each id that occurs keeps its last item, and no other id is present. */
  lemma {:induction false} LatestIsLast<V>(items: seq<V>, key: V -> string, id: string)
    ensures id in LatestById(items, key) <==> exists i :: LastWith(items, key, id, i)
    ensures forall i :: LastWith(items, key, id, i) ==>
      id in LatestById(items, key) && LatestById(items, key)[id] == items[i]
  {
    if items != [] {
      var n := |items| - 1;
      LatestIsLast(items[..n], key, id);
      if key(items[n]) == id {
        assert LastWith(items, key, id, n);
      } else {
        assert forall i :: LastWith(items, key, id, i) <==> LastWith(items[..n], key, id, i);
      }
    }
  }

  method NewestById<V>(items: seq<V>, key: V -> string) returns (m: map<string, V>)
    ensures m == LatestById(items, key)
  {
    m := map[];
    for i := 0 to |items|
      invariant m == LatestById(items[..i], key)
    {
      assert items[..i + 1][..i] == items[..i];
      m := m[key(items[i]) := items[i]];
    }
    assert items[..|items|] == items;
  }

  /** Go ranges over a map in any order: each key once. */
  predicate Ordering<V>(order: seq<string>, m: map<string, V>)
  {
    NoDup(order) && Elems(order) == m.Keys
  }

  function VolumeKey(r: VolumePerf): string { r.volumeId }

  function AppliancePerfKey(r: AppliancePerf): string { r.applianceId }

  function ApplianceSpaceKey(r: ApplianceSpace): string { r.applianceId }

  // ---------------------------------------------------------------- what each entity contributes

  function VolumeLabelsOf(a: string, t: Topology, volId: string, applId: string): (labels: seq<Label>)
    ensures Schema(labels, Family.Volume, a) && |labels| == 8
  {
    var (name, _, _) := t.VolumeInfo(volId);
    var (vgId, vgName) := t.VolumeGroupOf(volId);
    VolumeLabels(a, t.ClusterId(), if name == "" then volId else name, volId, applId, t.ApplianceName(applId), vgName,
                 vgId)
  }

  function ApplianceLabelsOf(a: string, t: Topology, applId: string): (labels: seq<Label>)
    ensures Schema(labels, Family.Appliance, a) && |labels| == 5
  {
    ApplianceLabels(a, t.ClusterId(), t.ApplianceName(applId), applId, t.ApplianceServiceTag(applId))
  }

  function VolumeValues(r: VolumePerf): Eight
  {
    [r.readIops, r.writeIops, r.totalIops, r.readBandwidth, r.writeBandwidth, r.avgReadLatency, r.avgWriteLatency,
     r.avgIoSize]
  }

  function AppliancePerfValues(r: AppliancePerf): Eight
  {
    [r.readIops, r.writeIops, r.totalIops, r.readBandwidth, r.writeBandwidth, r.avgReadLatency, r.avgWriteLatency,
     r.ioWorkloadCpuUtilization]
  }

  function ApplianceSpaceValues(r: ApplianceSpace): Eight
  {
    [Deref(r.physicalTotal), Deref(r.physicalUsed), Deref(r.logicalProvisioned), Deref(r.logicalUsed),
     r.dataReduction, r.efficiencyRatio, r.snapshotSavings, r.thinSavings]
  }

  function VolumeBlock(a: string, t: Topology, volId: string, r: VolumePerf): Block
  {
    Block(VolumeLabelsOf(a, t, volId, t.VolumeInfo(volId).1), VolumeValues(r))
  }

  function AppliancePerfBlock(a: string, t: Topology, applId: string, r: AppliancePerf): Block
  {
    Block(ApplianceLabelsOf(a, t, applId), AppliancePerfValues(r))
  }

  function ApplianceSpaceBlock(a: string, t: Topology, applId: string, r: ApplianceSpace): Block
  {
    Block(ApplianceLabelsOf(a, t, applId), ApplianceSpaceValues(r))
  }

  function VolumeBlockFn(a: string, t: Topology): (string, VolumePerf) -> Block
  {
    (id, r) => VolumeBlock(a, t, id, r)
  }

  function AppliancePerfBlockFn(a: string, t: Topology): (string, AppliancePerf) -> Block
  {
    (id, r) => AppliancePerfBlock(a, t, id, r)
  }

  function ApplianceSpaceBlockFn(a: string, t: Topology): (string, ApplianceSpace) -> Block
  {
    (id, r) => ApplianceSpaceBlock(a, t, id, r)
  }

  /** One block per id, in the order the map is ranged over. */
  function BlocksOf<V>(m: map<string, V>, order: seq<string>, f: (string, V) -> Block): seq<Block>
    requires Elems(order) == m.Keys
  {
    seq(|order|, i requires 0 <= i < |order| => assert order[i] in Elems(order); f(order[i], m[order[i]]))
  }

  /** One block per id of the map, rendered in some order. */
  ghost predicate DerivedFrom<V>(out: seq<Sample>, names: EightNames, m: map<string, V>, f: (string, V) -> Block)
  {
    exists order :: Ordering(order, m) && out == Render(names, BlocksOf(m, order, f))
  }

  // ---------------------------------------------------------------- the loops

  method DeriveVolumePerf(a: string, t: Topology, resp: seq<VolumePerf>) returns (out: seq<Sample>)
    ensures DerivedFrom(out, VOLUME_NAMES, LatestById(resp, VolumeKey), VolumeBlockFn(a, t))
  {
    var latest := NewestById(resp, VolumeKey);
    var ids := KeysInSomeOrder(latest);
    out := [];
    ghost var blocks := BlocksOf(latest, ids, VolumeBlockFn(a, t));
    for i := 0 to |ids|
      invariant out == Render(VOLUME_NAMES, blocks[..i])
    {
      var volId := ids[i];
      assert volId in Elems(ids);
      var r := latest[volId];
      var (volName, applId, _) := t.VolumeInfo(volId);
      if volName == "" {
        volName := volId;
      }
      var (vgId, vgName) := t.VolumeGroupOf(volId);
      var labels := VolumeLabels(a, t.ClusterId(), volName, volId, applId, t.ApplianceName(applId), vgName, vgId);
      RenderNext(VOLUME_NAMES, blocks, i);
      out := out + [
        Sample(VOLUME + "read_iops", labels, r.readIops),
        Sample(VOLUME + "write_iops", labels, r.writeIops),
        Sample(VOLUME + "total_iops", labels, r.totalIops),
        Sample(VOLUME + "read_bandwidth_bytes_per_second", labels, r.readBandwidth),
        Sample(VOLUME + "write_bandwidth_bytes_per_second", labels, r.writeBandwidth),
        Sample(VOLUME + "read_latency_microseconds", labels, r.avgReadLatency),
        Sample(VOLUME + "write_latency_microseconds", labels, r.avgWriteLatency),
        Sample(VOLUME + "avg_io_size_bytes", labels, r.avgIoSize)];
    }
    assert blocks[..|ids|] == blocks && Ordering(ids, latest);
  }

  method DeriveAppliancePerf(a: string, t: Topology, resp: seq<AppliancePerf>) returns (out: seq<Sample>)
    ensures DerivedFrom(out, APPLIANCE_NAMES, LatestById(resp, AppliancePerfKey), AppliancePerfBlockFn(a, t))
  {
    var latest := NewestById(resp, AppliancePerfKey);
    var ids := KeysInSomeOrder(latest);
    out := [];
    ghost var blocks := BlocksOf(latest, ids, AppliancePerfBlockFn(a, t));
    for i := 0 to |ids|
      invariant out == Render(APPLIANCE_NAMES, blocks[..i])
    {
      var applId := ids[i];
      assert applId in Elems(ids);
      var r := latest[applId];
      var labels := ApplianceLabels(a, t.ClusterId(), t.ApplianceName(applId), applId, t.ApplianceServiceTag(applId));
      RenderNext(APPLIANCE_NAMES, blocks, i);
      out := out + [
        Sample(APPLIANCE + "read_iops", labels, r.readIops),
        Sample(APPLIANCE + "write_iops", labels, r.writeIops),
        Sample(APPLIANCE + "total_iops", labels, r.totalIops),
        Sample(APPLIANCE + "read_bandwidth_bytes_per_second", labels, r.readBandwidth),
        Sample(APPLIANCE + "write_bandwidth_bytes_per_second", labels, r.writeBandwidth),
        Sample(APPLIANCE + "read_latency_microseconds", labels, r.avgReadLatency),
        Sample(APPLIANCE + "write_latency_microseconds", labels, r.avgWriteLatency),
        Sample(APPLIANCE + "io_workload_cpu_utilization", labels, r.ioWorkloadCpuUtilization)];
    }
    assert blocks[..|ids|] == blocks && Ordering(ids, latest);
  }

  method DeriveApplianceSpace(a: string, t: Topology, resp: seq<ApplianceSpace>) returns (out: seq<Sample>)
    ensures DerivedFrom(out, SPACE_NAMES, LatestById(resp, ApplianceSpaceKey), ApplianceSpaceBlockFn(a, t))
  {
    var latest := NewestById(resp, ApplianceSpaceKey);
    var ids := KeysInSomeOrder(latest);
    out := [];
    ghost var blocks := BlocksOf(latest, ids, ApplianceSpaceBlockFn(a, t));
    for i := 0 to |ids|
      invariant out == Render(SPACE_NAMES, blocks[..i])
    {
      var applId := ids[i];
      assert applId in Elems(ids);
      var r := latest[applId];
      var labels := ApplianceLabels(a, t.ClusterId(), t.ApplianceName(applId), applId, t.ApplianceServiceTag(applId));
      RenderNext(SPACE_NAMES, blocks, i);
      out := out + [
        Sample(APPLIANCE + "physical_total_bytes", labels, Deref(r.physicalTotal)),
        Sample(APPLIANCE + "physical_used_bytes", labels, Deref(r.physicalUsed)),
        Sample(APPLIANCE + "logical_provisioned_bytes", labels, Deref(r.logicalProvisioned)),
        Sample(APPLIANCE + "logical_used_bytes", labels, Deref(r.logicalUsed)),
        Sample(APPLIANCE + "data_reduction_ratio", labels, r.dataReduction),
        Sample(APPLIANCE + "efficiency_ratio", labels, r.efficiencyRatio),
        Sample(APPLIANCE + "snapshot_savings_ratio", labels, r.snapshotSavings),
        Sample(APPLIANCE + "thin_savings_ratio", labels, r.thinSavings)];
    }
    assert blocks[..|ids|] == blocks && Ordering(ids, latest);
  }

  // ---------------------------------------------------------------- one answer per entity

  predicate Orderings<V>(orders: seq<seq<string>>, answers: seq<seq<V>>, key: V -> string)
  {
    |orders| == |answers| && forall i :: 0 <= i < |answers| ==> Ordering(orders[i], LatestById(answers[i], key))
  }

  /** The blocks of several answers, answer by answer. */
  function BlocksAll<V>(answers: seq<seq<V>>, orders: seq<seq<string>>, key: V -> string,
                        f: (string, V) -> Block): seq<Block>
    requires Orderings(orders, answers, key)
  {
    if answers == [] then []
    else
      var n := |answers| - 1;
      BlocksAll(answers[..n], orders[..n], key, f) + BlocksOf(LatestById(answers[n], key), orders[n], f)
  }

  lemma {:induction false} LatestConcat<V>(a: seq<V>, b: seq<V>, key: V -> string)
    ensures LatestById(a + b, key) == LatestById(a, key) + LatestById(b, key)
  {
    if b == [] {
      assert a + b == a;
    } else {
      var n := |b| - 1;
      assert (a + b)[..|a + b| - 1] == a + b[..n];
      LatestConcat(a, b[..n], key);
    }
  }

  /** No id is answered about in two answers. */
  predicate OwnIds<V>(answers: seq<seq<V>>, key: V -> string)
  {
    forall i, j :: 0 <= i < j < |answers| ==> LatestById(answers[i], key).Keys !! LatestById(answers[j], key).Keys
  }

  lemma {:induction false} DisjointFromAll<V>(answers: seq<seq<V>>, key: V -> string, keys: set<string>)
    requires forall i :: 0 <= i < |answers| ==> LatestById(answers[i], key).Keys !! keys
    ensures LatestById(Flatten(answers), key).Keys !! keys
  {
    if answers != [] {
      var n := |answers| - 1;
      DisjointFromAll(answers[..n], key, keys);
      LatestConcat(Flatten(answers[..n]), answers[n], key);
    }
  }

  lemma OrderingUnion<V>(o1: seq<string>, m1: map<string, V>, o2: seq<string>, m2: map<string, V>,
                         f: (string, V) -> Block)
    requires Ordering(o1, m1) && Ordering(o2, m2) && m1.Keys !! m2.Keys
    ensures Ordering(o1 + o2, m1 + m2)
    ensures BlocksOf(m1 + m2, o1 + o2, f) == BlocksOf(m1, o1, f) + BlocksOf(m2, o2, f)
  {
    assert forall i :: 0 <= i < |o1| ==> o1[i] in Elems(o1);
    assert forall i :: 0 <= i < |o2| ==> o2[i] in Elems(o2);
    assert Elems(o1 + o2) == Elems(o1) + Elems(o2);
  }

  /** When every answer is about ids of its own, answering one by one is answering once. */
  lemma {:induction false} OneByOneIsAtOnce<V>(answers: seq<seq<V>>, orders: seq<seq<string>>, key: V -> string,
                                               f: (string, V) -> Block)
    requires Orderings(orders, answers, key) && OwnIds(answers, key)
    ensures Ordering(Flatten(orders), LatestById(Flatten(answers), key))
    ensures BlocksAll(answers, orders, key, f) == BlocksOf(LatestById(Flatten(answers), key), Flatten(orders), f)
  {
    if answers != [] {
      var n := |answers| - 1;
      OneByOneIsAtOnce(answers[..n], orders[..n], key, f);
      LatestConcat(Flatten(answers[..n]), answers[n], key);
      DisjointFromAll(answers[..n], key, LatestById(answers[n], key).Keys);
      OrderingUnion(Flatten(orders[..n]), LatestById(Flatten(answers[..n]), key),
                    orders[n], LatestById(answers[n], key), f);
    }
  }
}
