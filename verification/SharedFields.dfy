/** What the part shared by both export paths says, entity by entity: told by the full metric names, the labels
    and the fields of the inventory and of the answers. */
module SharedFields {
  import opened Prelude
  import opened Metrics
  import opened Topologies
  import opened Blocks
  import opened Fanout
  import opened Alerts
  import opened Replication
  import opened Common

  predicate Labelled(x: Sample, names: seq<string>, values: seq<string>)
  {
    LabelNames(x.labels) == ["array", "cluster_id"] + names && LabelValues(x.labels) == values
  }

  // ---------------------------------------------------------------- file systems and ports

  predicate ForFileSystem(x: Sample, a: string, t: Topology, fs: FileSystem, name: string)
  {
    Labelled(x, ["file_system_name", "file_system_id", "nas_server_name", "nas_server_id"],
             [a, t.ClusterId(), name, fs.id, t.NasName(fs.nasServerId), fs.nasServerId])
  }

  function OfFileSystem(reading: string): string
  {
    "powerstore_file_system_" + reading
  }

  /** Size and use of a file system that has a size. */
  predicate CapacityTold(x: Sample, a: string, t: Topology, fs: FileSystem)
  {
    && fs.sizeTotal > 0 && ForFileSystem(x, a, t, fs, fs.name)
    && (|| (x.name == OfFileSystem("size_total_bytes") && x.value == fs.sizeTotal as real)
        || (x.name == OfFileSystem("size_used_bytes") && x.value == fs.sizeUsed as real))
  }

  lemma CapacityIff(a: string, t: Topology, fs: FileSystem, x: Sample)
    ensures x in CapacityFn(a, t)(fs) <==> CapacityTold(x, a, t, fs)
  {
    var labels := FileSystemLabels(a, t.ClusterId(), fs.name, fs.id, t.NasName(fs.nasServerId), fs.nasServerId);
    if CapacityTold(x, a, t, fs) {
      SameLabels(x.labels, labels);
    }
  }

  predicate PortTold(x: Sample, a: string, t: Topology, p: Port, kind: string)
  {
    && x.name == "powerstore_port_" + "link_up" && x.value == (if p.isLinkUp then 1.0 else 0.0)
    && Labelled(x, ["port_name", "port_id", "port_type", "appliance_id"],
                [a, t.ClusterId(), p.name, p.id, kind, p.applianceId])
  }

  lemma PortIff(a: string, t: Topology, p: Port, kind: string, x: Sample)
    ensures x in PortFn(a, t, kind)(p) <==> PortTold(x, a, t, p, kind)
  {
    if PortTold(x, a, t, p, kind) {
      SameLabels(x.labels, PortLabels(a, t.ClusterId(), p.name, p.id, kind, p.applianceId));
    }
  }

  // ---------------------------------------------------------------- performance of file systems and groups

  /** One of the eight readings of an answer. */
  predicate ReadingTold(x: Sample, prefix: string, v: Eight)
  {
    || (x.name == prefix + "read_iops" && x.value == v[0]) || (x.name == prefix + "write_iops" && x.value == v[1])
    || (x.name == prefix + "total_iops" && x.value == v[2])
    || (x.name == prefix + "read_bandwidth_bytes_per_second" && x.value == v[3])
    || (x.name == prefix + "write_bandwidth_bytes_per_second" && x.value == v[4])
    || (x.name == prefix + "read_latency_microseconds" && x.value == v[5])
    || (x.name == prefix + "write_latency_microseconds" && x.value == v[6])
    || (x.name == prefix + "avg_io_size_bytes" && x.value == v[7])
  }

  function OwnName(name: string, id: string): string
  {
    if name != "" then name else id
  }

  predicate FileSystemPerfTold(x: Sample, a: string, t: Topology, q: Answers, fs: FileSystem)
  {
    && fs.sizeTotal > 0 && q.fileSystemPerf(fs).Some? && ForFileSystem(x, a, t, fs, OwnName(fs.name, fs.id))
    && ReadingTold(x, "powerstore_file_system_", q.fileSystemPerf(fs).value)
  }

  lemma RenderOneIff(names: EightNames, b: Block, x: Sample)
    ensures x in RenderOne(names, b) <==>
      && x.labels == b.labels
      && (|| (x.name == names.n0 && x.value == b.values[0]) || (x.name == names.n1 && x.value == b.values[1])
          || (x.name == names.n2 && x.value == b.values[2]) || (x.name == names.n3 && x.value == b.values[3])
          || (x.name == names.n4 && x.value == b.values[4]) || (x.name == names.n5 && x.value == b.values[5])
          || (x.name == names.n6 && x.value == b.values[6]) || (x.name == names.n7 && x.value == b.values[7]))
  {
    var out := RenderOne(names, b);
    assert out[0] in out && out[1] in out && out[2] in out && out[3] in out;
    assert out[4] in out && out[5] in out && out[6] in out && out[7] in out;
  }

  lemma FileSystemPerfIff(a: string, t: Topology, q: Answers, fs: FileSystem, x: Sample)
    ensures x in FileSystemPerfFn(a, t, q)(fs) <==> FileSystemPerfTold(x, a, t, q, fs)
  {
    var labels := FileSystemLabels(a, t.ClusterId(), OwnName(fs.name, fs.id), fs.id, t.NasName(fs.nasServerId),
                                   fs.nasServerId);
    if fs.sizeTotal > 0 && q.fileSystemPerf(fs).Some? {
      RenderOneIff(FILE_SYSTEM_NAMES, Block(labels, q.fileSystemPerf(fs).value), x);
      if ForFileSystem(x, a, t, fs, OwnName(fs.name, fs.id)) {
        SameLabels(x.labels, labels);
      }
    }
  }

  predicate GroupPerfTold(x: Sample, a: string, t: Topology, q: Answers, vg: VolumeGroup)
  {
    && q.groupPerf(vg).Some? && ReadingTold(x, "powerstore_volume_group_", q.groupPerf(vg).value)
    && Labelled(x, ["volume_group_name", "volume_group_id"], [a, t.ClusterId(), OwnName(vg.name, vg.id), vg.id])
  }

  lemma GroupPerfIff(a: string, t: Topology, q: Answers, vg: VolumeGroup, x: Sample)
    ensures x in GroupPerfFn(a, t, q)(vg) <==> GroupPerfTold(x, a, t, q, vg)
  {
    var labels := VolumeGroupLabels(a, t.ClusterId(), OwnName(vg.name, vg.id), vg.id);
    if q.groupPerf(vg).Some? {
      RenderOneIff(GROUP_NAMES, Block(labels, q.groupPerf(vg).value), x);
      if Labelled(x, ["volume_group_name", "volume_group_id"], LabelValues(labels)) {
        SameLabels(x.labels, labels);
      }
    }
  }

  // ---------------------------------------------------------------- cluster, drives, witnesses

  predicate ClusterTold(x: Sample, a: string, t: Topology, q: Answers)
  {
    && q.clusterSpace.Some? && Labelled(x, [], [a, t.ClusterId()])
    && (var v := q.clusterSpace.value;
        || (x.name == "powerstore_cluster_" + "physical_total_bytes" && x.value == v[0])
        || (x.name == "powerstore_cluster_" + "physical_used_bytes" && x.value == v[1])
        || (x.name == "powerstore_cluster_" + "logical_provisioned_bytes" && x.value == v[2])
        || (x.name == "powerstore_cluster_" + "logical_used_bytes" && x.value == v[3])
        || (x.name == "powerstore_cluster_" + "data_reduction_ratio" && x.value == v[4])
        || (x.name == "powerstore_cluster_" + "efficiency_ratio" && x.value == v[5]))
  }

  lemma ClusterIff(a: string, t: Topology, q: Answers, x: Sample)
    ensures x in ClusterSamples(a, t, q) <==> ClusterTold(x, a, t, q)
  {
    if ClusterTold(x, a, t, q) {
      SameLabels(x.labels, BaseLabels(a, t.ClusterId()));
    }
  }

  /** The state a drive is in, and its wear as a share of one. */
  predicate DriveTold(x: Sample, a: string, t: Topology, d: Drive)
  {
    && d.id != ""
    && (|| (&& x.name == "powerstore_drive_state" && x.value == 1.0 && d.lifecycleState != ""
            && Labelled(x, ["drive_id", "drive_name", "appliance_id", "state"],
                        [a, t.ClusterId(), d.id, d.name, d.applianceId, d.lifecycleState]))
        || (&& x.name == "powerstore_drive_wear_" + "level_ratio" && d.wearLevel == Some(x.value * 100.0)
            && Labelled(x, ["drive_id", "drive_name", "appliance_id"],
                        [a, t.ClusterId(), d.id, d.name, d.applianceId])))
  }

  lemma DriveIff(a: string, t: Topology, d: Drive, x: Sample)
    ensures x in DriveFn(a, t)(d) <==> DriveTold(x, a, t, d)
  {
    var state := DriveStateLabels(a, t.ClusterId(), d.id, d.name, d.applianceId, d.lifecycleState);
    var wear := DriveLabels(a, t.ClusterId(), d.id, d.name, d.applianceId);
    if DriveTold(x, a, t, d) {
      if |x.labels| == 6 {
        SameLabels(x.labels, state);
      } else {
        SameLabels(x.labels, wear);
      }
    }
  }

  predicate ConnectionTold(x: Sample, a: string, t: Topology, w: Witness, c: Connection)
  {
    && c.state != "" && x.name == "powerstore_metro_witness_connection_" + "state" && x.value == 1.0
    && Labelled(x, ["witness_id", "appliance_id", "node_id", "state"],
                [a, t.ClusterId(), w.id, c.applianceId, c.nodeId, c.state])
  }

  lemma ConnectionIff(a: string, t: Topology, w: Witness, c: Connection, x: Sample)
    ensures x in ConnectionFn(a, t, w)(c) <==> ConnectionTold(x, a, t, w, c)
  {
    if ConnectionTold(x, a, t, w, c) {
      SameLabels(x.labels, WitnessConnectionLabels(a, t.ClusterId(), w.id, c.applianceId, c.nodeId, c.state));
    }
  }

  /** The state a witness is in, and those of its connections. */
  predicate WitnessTold(x: Sample, a: string, t: Topology, w: Witness)
  {
    && w.id != ""
    && (|| (&& w.state != "" && x.name == "powerstore_metro_witness_state" && x.value == 1.0
            && Labelled(x, ["witness_id", "witness_name", "state"], [a, t.ClusterId(), w.id, w.name, w.state]))
        || exists i :: 0 <= i < |w.connections| && ConnectionTold(x, a, t, w, w.connections[i]))
  }

  lemma WitnessIff(a: string, t: Topology, w: Witness, x: Sample)
    ensures x in WitnessFn(a, t)(w) <==> WitnessTold(x, a, t, w)
  {
    MapConcatHas(w.connections, ConnectionFn(a, t, w), x);
    forall i | 0 <= i < |w.connections|
      ensures x in ConnectionFn(a, t, w)(w.connections[i]) <==> ConnectionTold(x, a, t, w, w.connections[i])
    {
      ConnectionIff(a, t, w, w.connections[i], x);
    }
    if LabelValues(x.labels) == [a, t.ClusterId(), w.id, w.name, w.state] &&
       LabelNames(x.labels) == ["array", "cluster_id"] + ["witness_id", "witness_name", "state"] {
      SameLabels(x.labels, WitnessStateLabels(a, t.ClusterId(), w.id, w.name, w.state));
    }
  }

  // ---------------------------------------------------------------- the whole shared part

  /** The gauge of a severity that is documented or has an active alert. */
  predicate AlertTold(x: Sample, a: string, t: Topology, severity: string)
  {
    var n := |ActiveOnes(t.alerts, severity)|;
    && (AlwaysShown(severity) || n > 0) && SaysActive(x, a, t.ClusterId(), severity, n)
    && LabelNames(x.labels) == ["array", "cluster_id", "severity"]
  }

  lemma AlertIff(a: string, t: Topology, severities: seq<string>, x: Sample)
    requires SeverityOrder(severities, t.alerts)
    ensures x in Gauges(a, t.ClusterId(), severities, t.alerts) <==> exists severity :: AlertTold(x, a, t, severity)
  {
    var out := Gauges(a, t.ClusterId(), severities, t.alerts);
    if k :| 0 <= k < |out| && out[k] == x {
      GaugesAt(a, t.ClusterId(), severities, t.alerts, k);
      CountIsNumber(t.alerts, severities[k]);
      KnownOnes(severities[k]);
      assert severities[k] in severities && AlertTold(x, a, t, severities[k]);
    }
    if severity :| AlertTold(x, a, t, severity) {
      CountIsNumber(t.alerts, severity);
      KnownOnes(severity);
      var k :| 0 <= k < |severities| && severities[k] == severity;
      GaugesAt(a, t.ClusterId(), severities, t.alerts, k);
      SameLabels(x.labels, AlertLabels(a, t.ClusterId(), severity));
      assert out[k] == x;
    }
  }

  ghost predicate InventoryTold(x: Sample, a: string, t: Topology)
  {
    || (exists i :: 0 <= i < |t.inv.fileSystems| && CapacityTold(x, a, t, t.inv.fileSystems[i]))
    || (exists i :: 0 <= i < |t.inv.ethPorts| && PortTold(x, a, t, t.inv.ethPorts[i], "eth"))
    || (exists i :: 0 <= i < |t.inv.fcPorts| && PortTold(x, a, t, t.inv.fcPorts[i], "fc"))
    || (exists severity :: AlertTold(x, a, t, severity))
  }

  ghost predicate PerfTold(x: Sample, a: string, t: Topology, q: Answers)
  {
    || (exists i :: 0 <= i < |t.inv.fileSystems| && FileSystemPerfTold(x, a, t, q, t.inv.fileSystems[i]))
    || (exists i :: 0 <= i < |t.inv.groups| && GroupPerfTold(x, a, t, q, t.inv.groups[i]))
  }

  ghost predicate HardwareTold(x: Sample, a: string, t: Topology, q: Answers)
  {
    || ClusterTold(x, a, t, q)
    || (q.drives.Some? && exists i :: 0 <= i < |q.drives.value| && DriveTold(x, a, t, q.drives.value[i]))
    || (q.witnesses.Some? && exists i :: 0 <= i < |q.witnesses.value| && WitnessTold(x, a, t, q.witnesses.value[i]))
  }

  lemma {:induction false} InFlatten<T>(parts: seq<seq<T>>, x: T)
    ensures x in Flatten(parts) <==> exists i :: 0 <= i < |parts| && x in parts[i]
  {
    if parts != [] {
      InFlatten(parts[..|parts| - 1], x);
    }
  }

  lemma InventoryPartIff(a: string, t: Topology, severities: seq<string>, x: Sample)
    requires SeverityOrder(severities, t.alerts)
    ensures InventoryTold(x, a, t) <==>
      || x in MapConcat(t.inv.fileSystems, CapacityFn(a, t))
      || x in MapConcat(t.inv.ethPorts, PortFn(a, t, "eth")) + MapConcat(t.inv.fcPorts, PortFn(a, t, "fc"))
      || x in Gauges(a, t.ClusterId(), severities, t.alerts)
  {
    MapConcatHas(t.inv.fileSystems, CapacityFn(a, t), x);
    MapConcatHas(t.inv.ethPorts, PortFn(a, t, "eth"), x);
    MapConcatHas(t.inv.fcPorts, PortFn(a, t, "fc"), x);
    forall fs { CapacityIff(a, t, fs, x); }
    forall p { PortIff(a, t, p, "eth", x); }
    forall p { PortIff(a, t, p, "fc", x); }
    AlertIff(a, t, severities, x);
  }

  lemma PerfPartIff(a: string, t: Topology, q: Answers, x: Sample)
    ensures PerfTold(x, a, t, q) <==>
      x in MapConcat(t.inv.fileSystems, FileSystemPerfFn(a, t, q)) || x in MapConcat(t.inv.groups, GroupPerfFn(a, t, q))
  {
    MapConcatHas(t.inv.fileSystems, FileSystemPerfFn(a, t, q), x);
    MapConcatHas(t.inv.groups, GroupPerfFn(a, t, q), x);
    forall fs { FileSystemPerfIff(a, t, q, fs, x); }
    forall vg { GroupPerfIff(a, t, q, vg, x); }
  }

  lemma HardwarePartIff(a: string, t: Topology, q: Answers, x: Sample)
    ensures HardwareTold(x, a, t, q) <==>
      || x in ClusterSamples(a, t, q)
      || x in MapConcat(Listed(q.drives), DriveFn(a, t)) || x in MapConcat(Listed(q.witnesses), WitnessFn(a, t))
  {
    MapConcatHas(Listed(q.drives), DriveFn(a, t), x);
    MapConcatHas(Listed(q.witnesses), WitnessFn(a, t), x);
    forall d { DriveIff(a, t, d, x); }
    forall w { WitnessIff(a, t, w, x); }
    ClusterIff(a, t, q, x);
  }

  lemma InNine<T>(p0: seq<T>, p1: seq<T>, p2: seq<T>, p3: seq<T>, p4: seq<T>, p5: seq<T>, p6: seq<T>, p7: seq<T>,
                  p8: seq<T>, x: T)
    ensures x in Flatten([p0, p1, p2, p3, p4, p5, p6, p7, p8]) <==>
      x in p0 || x in p1 || x in p2 || x in p3 || x in p4 || x in p5 || x in p6 || x in p7 || x in p8
  {
    var parts := [p0, p1, p2, p3, p4, p5, p6, p7, p8];
    InFlatten(parts, x);
    assert parts[0] == p0 && parts[1] == p1 && parts[2] == p2 && parts[3] == p3 && parts[4] == p4;
    assert parts[5] == p5 && parts[6] == p6 && parts[7] == p7 && parts[8] == p8;
  }

  lemma InSharedIff(a: string, t: Topology, q: Answers, severities: seq<string>, x: Sample)
    ensures x in CommonSamples(a, t, q, severities) <==>
      || x in MapConcat(t.inv.fileSystems, CapacityFn(a, t))
      || x in MapConcat(t.inv.ethPorts, PortFn(a, t, "eth")) + MapConcat(t.inv.fcPorts, PortFn(a, t, "fc"))
      || x in Gauges(a, t.ClusterId(), severities, t.alerts)
      || x in ReplicationSamples(a, t, q.rules, q.sessions, q.rates)
      || x in MapConcat(t.inv.fileSystems, FileSystemPerfFn(a, t, q))
      || x in MapConcat(t.inv.groups, GroupPerfFn(a, t, q))
      || x in ClusterSamples(a, t, q)
      || x in MapConcat(Listed(q.drives), DriveFn(a, t)) || x in MapConcat(Listed(q.witnesses), WitnessFn(a, t))
  {
    InNine(MapConcat(t.inv.fileSystems, CapacityFn(a, t)),
           MapConcat(t.inv.ethPorts, PortFn(a, t, "eth")) + MapConcat(t.inv.fcPorts, PortFn(a, t, "fc")),
           Gauges(a, t.ClusterId(), severities, t.alerts),
           ReplicationSamples(a, t, q.rules, q.sessions, q.rates),
           MapConcat(t.inv.fileSystems, FileSystemPerfFn(a, t, q)),
           MapConcat(t.inv.groups, GroupPerfFn(a, t, q)),
           ClusterSamples(a, t, q),
           MapConcat(Listed(q.drives), DriveFn(a, t)),
           MapConcat(Listed(q.witnesses), WitnessFn(a, t)), x);
  }

  /** The shared part is exactly what inventory, alerts, replication and the queries of its own tell. */
  lemma CommonIsTold(samples: seq<Sample>, a: string, t: Topology, q: Answers, x: Sample)
    requires IsCommon(samples, a, t, q)
    ensures x in samples <==>
      || InventoryTold(x, a, t) || x in ReplicationSamples(a, t, q.rules, q.sessions, q.rates)
      || PerfTold(x, a, t, q) || HardwareTold(x, a, t, q)
  {
    var severities :| SeverityOrder(severities, t.alerts) && samples == CommonSamples(a, t, q, severities);
    InSharedIff(a, t, q, severities, x);
    InventoryPartIff(a, t, severities, x);
    PerfPartIff(a, t, q, x);
    HardwarePartIff(a, t, q, x);
  }
}
