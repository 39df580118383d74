/** Which reading goes under which metric name, on both export paths: told by the full names, the fields of the
    replies and the columns of the files. */
module Fields {
  import opened Prelude
  import opened Metrics
  import opened Topologies
  import opened Blocks
  import opened PerEntity
  import opened Bulk
  import opened Paths

  // ---------------------------------------------------------------- names

  function OfVolume(reading: string): string
  {
    "powerstore_volume_" + reading
  }

  function OfAppliance(reading: string): string
  {
    "powerstore_appliance_" + reading
  }

  lemma VolumeNamesAre()
    ensures VOLUME_NAMES == EightNames(
      OfVolume("read_iops"), OfVolume("write_iops"), OfVolume("total_iops"),
      OfVolume("read_bandwidth_bytes_per_second"), OfVolume("write_bandwidth_bytes_per_second"),
      OfVolume("read_latency_microseconds"), OfVolume("write_latency_microseconds"),
      OfVolume("avg_io_size_bytes"))
  {
  }

  lemma ApplianceNamesAre()
    ensures APPLIANCE_NAMES == EightNames(
      OfAppliance("read_iops"), OfAppliance("write_iops"), OfAppliance("total_iops"),
      OfAppliance("read_bandwidth_bytes_per_second"), OfAppliance("write_bandwidth_bytes_per_second"),
      OfAppliance("read_latency_microseconds"), OfAppliance("write_latency_microseconds"),
      OfAppliance("io_workload_cpu_utilization"))
  {
  }

  lemma SpaceNamesAre()
    ensures SPACE_NAMES == EightNames(
      OfAppliance("physical_total_bytes"), OfAppliance("physical_used_bytes"),
      OfAppliance("logical_provisioned_bytes"), OfAppliance("logical_used_bytes"),
      OfAppliance("data_reduction_ratio"), OfAppliance("efficiency_ratio"),
      OfAppliance("snapshot_savings_ratio"), OfAppliance("thin_savings_ratio"))
  {
  }

  // ---------------------------------------------------------------- readings

  predicate VolumeShown(out: seq<Sample>, labels: seq<Label>, r: VolumePerf)
  {
    && Sample(OfVolume("read_iops"), labels, r.readIops) in out
    && Sample(OfVolume("write_iops"), labels, r.writeIops) in out
    && Sample(OfVolume("total_iops"), labels, r.totalIops) in out
    && Sample(OfVolume("read_bandwidth_bytes_per_second"), labels, r.readBandwidth) in out
    && Sample(OfVolume("write_bandwidth_bytes_per_second"), labels, r.writeBandwidth) in out
    && Sample(OfVolume("read_latency_microseconds"), labels, r.avgReadLatency) in out
    && Sample(OfVolume("write_latency_microseconds"), labels, r.avgWriteLatency) in out
    && Sample(OfVolume("avg_io_size_bytes"), labels, r.avgIoSize) in out
  }

  predicate AppliancePerfShown(out: seq<Sample>, labels: seq<Label>, r: AppliancePerf)
  {
    && Sample(OfAppliance("read_iops"), labels, r.readIops) in out
    && Sample(OfAppliance("write_iops"), labels, r.writeIops) in out
    && Sample(OfAppliance("total_iops"), labels, r.totalIops) in out
    && Sample(OfAppliance("read_bandwidth_bytes_per_second"), labels, r.readBandwidth) in out
    && Sample(OfAppliance("write_bandwidth_bytes_per_second"), labels, r.writeBandwidth) in out
    && Sample(OfAppliance("read_latency_microseconds"), labels, r.avgReadLatency) in out
    && Sample(OfAppliance("write_latency_microseconds"), labels, r.avgWriteLatency) in out
    && Sample(OfAppliance("io_workload_cpu_utilization"), labels, r.ioWorkloadCpuUtilization) in out
  }

  /** A missing amount reads as zero. */
  function Amount(p: Option<int>): real
  {
    match p
    case None => 0.0
    case Some(n) => n as real
  }

  predicate SpaceShown(out: seq<Sample>, labels: seq<Label>, r: ApplianceSpace)
  {
    && Sample(OfAppliance("physical_total_bytes"), labels, Amount(r.physicalTotal)) in out
    && Sample(OfAppliance("physical_used_bytes"), labels, Amount(r.physicalUsed)) in out
    && Sample(OfAppliance("logical_provisioned_bytes"), labels, Amount(r.logicalProvisioned)) in out
    && Sample(OfAppliance("logical_used_bytes"), labels, Amount(r.logicalUsed)) in out
    && Sample(OfAppliance("data_reduction_ratio"), labels, r.dataReduction) in out
    && Sample(OfAppliance("efficiency_ratio"), labels, r.efficiencyRatio) in out
    && Sample(OfAppliance("snapshot_savings_ratio"), labels, r.snapshotSavings) in out
    && Sample(OfAppliance("thin_savings_ratio"), labels, r.thinSavings) in out
  }

  /** The row's cell under the first of these columns that can be read. */
  predicate CellShown(out: seq<Sample>, name: string, labels: seq<Label>, row: Row, columns: seq<string>, parse: Parser)
  {
    Sample(name, labels, CsvValue(row, columns, parse)) in out
  }

  predicate VolumeRowShown(out: seq<Sample>, labels: seq<Label>, row: Row, parse: Parser)
  {
    && CellShown(out, OfVolume("read_iops"), labels, row, ["avg_read_iops", "read_iops"], parse)
    && CellShown(out, OfVolume("write_iops"), labels, row, ["avg_write_iops", "write_iops"], parse)
    && CellShown(out, OfVolume("total_iops"), labels, row, ["avg_total_iops", "total_iops"], parse)
    && CellShown(out, OfVolume("read_bandwidth_bytes_per_second"), labels, row,
                 ["avg_read_bandwidth", "read_bandwidth"], parse)
    && CellShown(out, OfVolume("write_bandwidth_bytes_per_second"), labels, row,
                 ["avg_write_bandwidth", "write_bandwidth"], parse)
    && CellShown(out, OfVolume("read_latency_microseconds"), labels, row, ["avg_read_latency"], parse)
    && CellShown(out, OfVolume("write_latency_microseconds"), labels, row, ["avg_write_latency"], parse)
    && CellShown(out, OfVolume("avg_io_size_bytes"), labels, row, ["avg_io_size"], parse)
  }

  predicate AppliancePerfRowShown(out: seq<Sample>, labels: seq<Label>, row: Row, parse: Parser)
  {
    && CellShown(out, OfAppliance("read_iops"), labels, row, ["avg_read_iops", "read_iops"], parse)
    && CellShown(out, OfAppliance("write_iops"), labels, row, ["avg_write_iops", "write_iops"], parse)
    && CellShown(out, OfAppliance("total_iops"), labels, row, ["avg_total_iops", "total_iops"], parse)
    && CellShown(out, OfAppliance("read_bandwidth_bytes_per_second"), labels, row,
                 ["avg_read_bandwidth", "read_bandwidth"], parse)
    && CellShown(out, OfAppliance("write_bandwidth_bytes_per_second"), labels, row,
                 ["avg_write_bandwidth", "write_bandwidth"], parse)
    && CellShown(out, OfAppliance("read_latency_microseconds"), labels, row, ["avg_read_latency"], parse)
    && CellShown(out, OfAppliance("write_latency_microseconds"), labels, row, ["avg_write_latency"], parse)
    && CellShown(out, OfAppliance("io_workload_cpu_utilization"), labels, row,
                 ["avg_io_workload_cpu_utilization", "io_workload_cpu_utilization"], parse)
  }

  predicate SpaceRowShown(out: seq<Sample>, labels: seq<Label>, row: Row, parse: Parser)
  {
    && CellShown(out, OfAppliance("physical_total_bytes"), labels, row,
                 ["physical_total", "last_physical_total"], parse)
    && CellShown(out, OfAppliance("physical_used_bytes"), labels, row,
                 ["physical_used", "last_physical_used"], parse)
    && CellShown(out, OfAppliance("logical_provisioned_bytes"), labels, row,
                 ["logical_provisioned", "last_logical_provisioned"], parse)
    && CellShown(out, OfAppliance("logical_used_bytes"), labels, row,
                 ["logical_used", "last_logical_used"], parse)
    && CellShown(out, OfAppliance("data_reduction_ratio"), labels, row,
                 ["data_reduction", "last_data_reduction"], parse)
    && CellShown(out, OfAppliance("efficiency_ratio"), labels, row,
                 ["efficiency_ratio", "last_efficiency_ratio"], parse)
    && CellShown(out, OfAppliance("snapshot_savings_ratio"), labels, row,
                 ["snapshot_savings", "last_snapshot_savings"], parse)
    && CellShown(out, OfAppliance("thin_savings_ratio"), labels, row,
                 ["thin_savings", "last_thin_savings"], parse)
  }

  // ---------------------------------------------------------------- labels

  /** The labels of a volume that is charted under this appliance; without a name its id stands in. */
  predicate ForVolume(labels: seq<Label>, a: string, t: Topology, id: string, applId: string)
  {
    var name, group := t.VolumeInfo(id).0, t.VolumeGroupOf(id);
    && LabelNames(labels) == ["array", "cluster_id", "volume_name", "volume_id", "appliance_id", "appliance_name",
                              "volume_group_name", "volume_group_id"]
    && LabelValues(labels) == [a, t.ClusterId(), if name == "" then id else name, id, applId, t.ApplianceName(applId),
                               group.1, group.0]
  }

  predicate ForAppliance(labels: seq<Label>, a: string, t: Topology, id: string)
  {
    && LabelNames(labels) == ["array", "cluster_id", "appliance_name", "appliance_id", "service_tag"]
    && LabelValues(labels) == [a, t.ClusterId(), t.ApplianceName(id), id, t.ApplianceServiceTag(id)]
  }

  // ---------------------------------------------------------------- from blocks to readings

  /** All eight metrics of the block are among the samples. */
  predicate BlockShown(out: seq<Sample>, names: EightNames, b: Block)
  {
    forall k :: 0 <= k < 8 ==> Sample(names.At(k), b.labels, b.values[k]) in out
  }

  lemma Rendered(names: EightNames, blocks: seq<Block>, i: nat)
    requires i < |blocks|
    ensures BlockShown(Render(names, blocks), names, blocks[i])
  {
    forall k: nat | k < 8
      ensures Sample(names.At(k), blocks[i].labels, blocks[i].values[k]) in Render(names, blocks)
    {
      RenderAt(names, blocks, i, k);
    }
  }

  lemma ShownOne(out: seq<Sample>, names: EightNames, b: Block, k: nat)
    requires BlockShown(out, names, b) && k < 8
    ensures Sample(names.At(k), b.labels, b.values[k]) in out
  {
  }

  lemma ShownEight(out: seq<Sample>, names: EightNames, b: Block)
    requires BlockShown(out, names, b)
    ensures Sample(names.n0, b.labels, b.values[0]) in out && Sample(names.n1, b.labels, b.values[1]) in out
    ensures Sample(names.n2, b.labels, b.values[2]) in out && Sample(names.n3, b.labels, b.values[3]) in out
    ensures Sample(names.n4, b.labels, b.values[4]) in out && Sample(names.n5, b.labels, b.values[5]) in out
    ensures Sample(names.n6, b.labels, b.values[6]) in out && Sample(names.n7, b.labels, b.values[7]) in out
  {
    ShownOne(out, names, b, 0); ShownOne(out, names, b, 1); ShownOne(out, names, b, 2); ShownOne(out, names, b, 3);
    ShownOne(out, names, b, 4); ShownOne(out, names, b, 5); ShownOne(out, names, b, 6); ShownOne(out, names, b, 7);
  }

  lemma VolumeBlockFields(out: seq<Sample>, a: string, t: Topology, id: string, r: VolumePerf)
    requires BlockShown(out, VOLUME_NAMES, VolumeBlock(a, t, id, r))
    ensures exists labels :: ForVolume(labels, a, t, id, t.VolumeInfo(id).1) && VolumeShown(out, labels, r)
  {
    VolumeNamesAre();
    ShownEight(out, VOLUME_NAMES, VolumeBlock(a, t, id, r));
    var labels := VolumeLabelsOf(a, t, id, t.VolumeInfo(id).1);
    assert ForVolume(labels, a, t, id, t.VolumeInfo(id).1) && VolumeShown(out, labels, r);
  }

  lemma PerfBlockFields(out: seq<Sample>, a: string, t: Topology, id: string, r: AppliancePerf)
    requires BlockShown(out, APPLIANCE_NAMES, AppliancePerfBlock(a, t, id, r))
    ensures exists labels :: ForAppliance(labels, a, t, id) && AppliancePerfShown(out, labels, r)
  {
    ApplianceNamesAre();
    ShownEight(out, APPLIANCE_NAMES, AppliancePerfBlock(a, t, id, r));
    var labels := ApplianceLabelsOf(a, t, id);
    assert ForAppliance(labels, a, t, id) && AppliancePerfShown(out, labels, r);
  }

  lemma SpaceBlockFields(out: seq<Sample>, a: string, t: Topology, id: string, r: ApplianceSpace)
    requires BlockShown(out, SPACE_NAMES, ApplianceSpaceBlock(a, t, id, r))
    ensures exists labels :: ForAppliance(labels, a, t, id) && SpaceShown(out, labels, r)
  {
    SpaceNamesAre();
    ShownEight(out, SPACE_NAMES, ApplianceSpaceBlock(a, t, id, r));
    var labels := ApplianceLabelsOf(a, t, id);
    assert ForAppliance(labels, a, t, id) && SpaceShown(out, labels, r);
  }

  /** The inventory's appliance, or the one the row names when the inventory has none. */
  function ChartedUnder(t: Topology, row: Row): string
  {
    var known := t.VolumeInfo(Cell(row, "volume_id")).1;
    if known != "" then known else if "appliance_id" in row then row["appliance_id"] else ""
  }

  lemma VolumeRowFields(out: seq<Sample>, a: string, t: Topology, row: Row, parse: Parser)
    requires BlockShown(out, VOLUME_NAMES, BulkVolumeBlock(a, t, row, parse))
    ensures exists labels ::
      ForVolume(labels, a, t, Cell(row, "volume_id"), ChartedUnder(t, row)) && VolumeRowShown(out, labels, row, parse)
  {
    VolumeNamesAre();
    ShownEight(out, VOLUME_NAMES, BulkVolumeBlock(a, t, row, parse));
    var labels := VolumeLabelsOf(a, t, Cell(row, "volume_id"), ChartedUnder(t, row));
    assert BulkVolumeBlock(a, t, row, parse) == Block(labels, VolumeCells(row, parse));
    assert ForVolume(labels, a, t, Cell(row, "volume_id"), ChartedUnder(t, row)) &&
           VolumeRowShown(out, labels, row, parse);
  }

  lemma PerfRowFields(out: seq<Sample>, a: string, t: Topology, row: Row, parse: Parser)
    requires BlockShown(out, APPLIANCE_NAMES, BulkPerfBlock(a, t, row, parse))
    ensures exists labels ::
      ForAppliance(labels, a, t, Cell(row, "appliance_id")) && AppliancePerfRowShown(out, labels, row, parse)
  {
    ApplianceNamesAre();
    ShownEight(out, APPLIANCE_NAMES, BulkPerfBlock(a, t, row, parse));
    var labels := ApplianceLabelsOf(a, t, Cell(row, "appliance_id"));
    assert ForAppliance(labels, a, t, Cell(row, "appliance_id")) && AppliancePerfRowShown(out, labels, row, parse);
  }

  lemma SpaceRowFields(out: seq<Sample>, a: string, t: Topology, row: Row, parse: Parser)
    requires BlockShown(out, SPACE_NAMES, BulkSpaceBlock(a, t, row, parse))
    ensures exists labels ::
      ForAppliance(labels, a, t, Cell(row, "appliance_id")) && SpaceRowShown(out, labels, row, parse)
  {
    SpaceNamesAre();
    ShownEight(out, SPACE_NAMES, BulkSpaceBlock(a, t, row, parse));
    var labels := ApplianceLabelsOf(a, t, Cell(row, "appliance_id"));
    assert ForAppliance(labels, a, t, Cell(row, "appliance_id")) && SpaceRowShown(out, labels, row, parse);
  }

  // ---------------------------------------------------------------- the per-entity path

  lemma {:induction false} BlocksAllHas<V>(answers: seq<seq<V>>, orders: seq<seq<string>>, key: V -> string,
                                           f: (string, V) -> Block, i: nat, id: string)
    requires Orderings(orders, answers, key) && i < |answers| && id in LatestById(answers[i], key)
    ensures f(id, LatestById(answers[i], key)[id]) in BlocksAll(answers, orders, key, f)
  {
    var n := |answers| - 1;
    if i < n {
      BlocksAllHas(answers[..n], orders[..n], key, f, i, id);
    } else {
      assert id in Elems(orders[n]);
      var p :| 0 <= p < |orders[n]| && orders[n][p] == id;
      assert BlocksOf(LatestById(answers[n], key), orders[n], f)[p] == f(id, LatestById(answers[n], key)[id]);
    }
  }

  /** Item k of the reply to query i is the newest one about its entity. */
  predicate Newest<V>(replies: seq<Option<seq<V>>>, key: V -> string, i: nat, k: nat)
  {
    && i < |replies| && replies[i].Some? && k < |replies[i].value|
    && forall l :: k < l < |replies[i].value| ==> key(replies[i].value[l]) != key(replies[i].value[k])
  }

  lemma ShownAll<V>(names: EightNames, replies: seq<Option<seq<V>>>, orders: seq<seq<string>>, key: V -> string,
                    f: (string, V) -> Block, i: nat, k: nat)
    requires Orderings(orders, Answered(replies), key) && Newest(replies, key, i, k)
    ensures BlockShown(Render(names, BlocksAll(Answered(replies), orders, key, f)), names,
                       f(key(replies[i].value[k]), replies[i].value[k]))
  {
    var id := key(replies[i].value[k]);
    var blocks := BlocksAll(Answered(replies), orders, key, f);
    assert LastWith(replies[i].value, key, id, k);
    LatestIsLast(replies[i].value, key, id);
    BlocksAllHas(Answered(replies), orders, key, f, i, id);
    var p :| 0 <= p < |blocks| && blocks[p] == f(id, replies[i].value[k]);
    Rendered(names, blocks, p);
  }

  lemma BlockShownIn(part: seq<Sample>, out: seq<Sample>, names: EightNames, b: Block)
    requires BlockShown(part, names, b) && forall s :: s in part ==> s in out
    ensures BlockShown(out, names, b)
  {
  }

  /** What one whole per-entity pass consists of. */
  lemma PartsIn(samples: seq<Sample>, a: string, t: Topology, q: Queries, common: seq<Sample>) returns (o: Orders)
    requires IsPerEntity(samples, a, t, q, common)
    ensures OrdersOf(o, q)
    ensures forall s :: s in PerfSamples(a, t, q.perf, o.perf) ==> s in samples
    ensures forall s :: s in SpaceSamples(a, t, q.space, o.space) ==> s in samples
    ensures forall s :: s in VolumeSamples(a, t, q.volume, o.volume) ==> s in samples
    ensures forall s :: s in common ==> s in samples
  {
    o :| OrdersOf(o, q) && multiset(samples) == multiset(PerEntitySamples(a, t, q, o, common));
    var all := PerEntitySamples(a, t, q, o, common);
    forall s | s in all
      ensures s in samples
    {
      assert s in multiset(all) && s in multiset(samples);
    }
  }

  /** Of each reply that came, the newest item about each volume is shown, reading by reading, with the labels of
      that volume; and the common part is there too. */
  lemma VolumesAreShown(samples: seq<Sample>, a: string, t: Topology, q: Queries, common: seq<Sample>, i: nat, k: nat)
    requires IsPerEntity(samples, a, t, q, common) && Newest(q.volume, VolumeKey, i, k)
    ensures var r := q.volume[i].value[k]; exists labels ::
      ForVolume(labels, a, t, r.volumeId, t.VolumeInfo(r.volumeId).1) && VolumeShown(samples, labels, r)
    ensures forall s :: s in common ==> s in samples
  {
    var r := q.volume[i].value[k];
    var o := PartsIn(samples, a, t, q, common);
    ShownAll(VOLUME_NAMES, q.volume, o.volume, VolumeKey, VolumeBlockFn(a, t), i, k);
    BlockShownIn(VolumeSamples(a, t, q.volume, o.volume), samples, VOLUME_NAMES, VolumeBlock(a, t, r.volumeId, r));
    VolumeBlockFields(samples, a, t, r.volumeId, r);
  }

  lemma AppliancesAreShown(samples: seq<Sample>, a: string, t: Topology, q: Queries, common: seq<Sample>, i: nat,
                           k: nat)
    requires IsPerEntity(samples, a, t, q, common) && Newest(q.perf, AppliancePerfKey, i, k)
    ensures var r := q.perf[i].value[k];
      exists labels :: ForAppliance(labels, a, t, r.applianceId) && AppliancePerfShown(samples, labels, r)
  {
    var r := q.perf[i].value[k];
    var o := PartsIn(samples, a, t, q, common);
    ShownAll(APPLIANCE_NAMES, q.perf, o.perf, AppliancePerfKey, AppliancePerfBlockFn(a, t), i, k);
    BlockShownIn(PerfSamples(a, t, q.perf, o.perf), samples, APPLIANCE_NAMES,
                 AppliancePerfBlock(a, t, r.applianceId, r));
    PerfBlockFields(samples, a, t, r.applianceId, r);
  }

  lemma SpacesAreShown(samples: seq<Sample>, a: string, t: Topology, q: Queries, common: seq<Sample>, i: nat, k: nat)
    requires IsPerEntity(samples, a, t, q, common) && Newest(q.space, ApplianceSpaceKey, i, k)
    ensures var r := q.space[i].value[k];
      exists labels :: ForAppliance(labels, a, t, r.applianceId) && SpaceShown(samples, labels, r)
  {
    var r := q.space[i].value[k];
    var o := PartsIn(samples, a, t, q, common);
    ShownAll(SPACE_NAMES, q.space, o.space, ApplianceSpaceKey, ApplianceSpaceBlockFn(a, t), i, k);
    BlockShownIn(SpaceSamples(a, t, q.space, o.space), samples, SPACE_NAMES,
                 ApplianceSpaceBlock(a, t, r.applianceId, r));
    SpaceBlockFields(samples, a, t, r.applianceId, r);
  }

  // ---------------------------------------------------------------- the bulk path

  /** The row that record k + 1 of this file becomes. */
  ghost predicate RowOfFile(entries: seq<ArchiveEntry>, name: string, i: int, k: nat, row: Row)
  {
    && AllParse(entries) && LastFile(entries, name, i) && k + 1 < |entries[i].records.value|
    && row == RowOf(entries[i].records.value[0], entries[i].records.value[k + 1])
  }

  lemma RowShown(names: EightNames, entries: seq<ArchiveEntry>, file: string, i: int, k: nat, row: Row, g: Row -> Block)
    requires RowOfFile(entries, file, i, k, row)
    ensures BlockShown(Render(names, RowBlocks(FileRows(entries, file), g)), names, g(row))
  {
    FileRowsOfLast(entries, file);
    assert FileRows(entries, file)[k] == row;
    Rendered(names, RowBlocks(FileRows(entries, file), g), k);
  }

  /** Every record of the volume file is shown, column by column, with the labels of its volume. */
  lemma VolumeRowsAreShown(a: string, t: Topology, entries: seq<ArchiveEntry>, parse: Parser, common: seq<Sample>,
                           i: int, k: nat, row: Row)
    requires RowOfFile(entries, "performance_metrics_by_volume.csv", i, k, row)
    ensures var out := BulkSamples(a, t, entries, parse, common); exists labels ::
      ForVolume(labels, a, t, Cell(row, "volume_id"), ChartedUnder(t, row)) && VolumeRowShown(out, labels, row, parse)
  {
    RowShown(VOLUME_NAMES, entries, VOLUME_FILE, i, k, row, BulkVolumeFn(a, t, parse));
    BlockShownIn(BulkParts(a, t, entries, parse).2, BulkSamples(a, t, entries, parse, common), VOLUME_NAMES,
                 BulkVolumeBlock(a, t, row, parse));
    VolumeRowFields(BulkSamples(a, t, entries, parse, common), a, t, row, parse);
  }

  lemma ApplianceRowsAreShown(a: string, t: Topology, entries: seq<ArchiveEntry>, parse: Parser, common: seq<Sample>,
                              i: int, k: nat, row: Row)
    requires RowOfFile(entries, "performance_metrics_by_appliance.csv", i, k, row)
    ensures var out := BulkSamples(a, t, entries, parse, common); exists labels ::
      ForAppliance(labels, a, t, Cell(row, "appliance_id")) && AppliancePerfRowShown(out, labels, row, parse)
  {
    RowShown(APPLIANCE_NAMES, entries, PERF_FILE, i, k, row, BulkPerfFn(a, t, parse));
    BlockShownIn(BulkParts(a, t, entries, parse).0, BulkSamples(a, t, entries, parse, common), APPLIANCE_NAMES,
                 BulkPerfBlock(a, t, row, parse));
    PerfRowFields(BulkSamples(a, t, entries, parse, common), a, t, row, parse);
  }

  lemma SpaceRowsAreShown(a: string, t: Topology, entries: seq<ArchiveEntry>, parse: Parser, common: seq<Sample>,
                          i: int, k: nat, row: Row)
    requires RowOfFile(entries, "space_metrics_by_appliance.csv", i, k, row)
    ensures var out := BulkSamples(a, t, entries, parse, common); exists labels ::
      ForAppliance(labels, a, t, Cell(row, "appliance_id")) && SpaceRowShown(out, labels, row, parse)
  {
    RowShown(SPACE_NAMES, entries, SPACE_FILE, i, k, row, BulkSpaceFn(a, t, parse));
    BlockShownIn(BulkParts(a, t, entries, parse).1, BulkSamples(a, t, entries, parse, common), SPACE_NAMES,
                 BulkSpaceBlock(a, t, row, parse));
    SpaceRowFields(BulkSamples(a, t, entries, parse, common), a, t, row, parse);
  }
}
