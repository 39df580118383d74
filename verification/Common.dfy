/** The metrics both export paths share (commonMetrics in client.go), and their label schema. */
module Common {
  import opened Prelude
  import opened Metrics
  import opened Topologies
  import opened Blocks
  import opened Fanout
  import opened Alerts
  import opened Replication

  // ---------------------------------------------------------------- from the inventory

  /** Inactive stubs report no size; they are not charted. */
  predicate Chartable(fs: FileSystem)
  {
    fs.sizeTotal > 0
  }

  function CapacitySamples(a: string, t: Topology, fs: FileSystem): seq<Sample>
  {
    if !Chartable(fs) then []
    else
      var labels := FileSystemLabels(a, t.ClusterId(), fs.name, fs.id, t.NasName(fs.nasServerId), fs.nasServerId);
      [Sample(FILE_SYSTEM + "size_total_bytes", labels, fs.sizeTotal as real),
       Sample(FILE_SYSTEM + "size_used_bytes", labels, fs.sizeUsed as real)]
  }

  function CapacityFn(a: string, t: Topology): FileSystem -> seq<Sample>
  {
    (fs: FileSystem) => CapacitySamples(a, t, fs)
  }

  method DeriveFileSystemCapacity(a: string, t: Topology) returns (out: seq<Sample>)
    ensures out == MapConcat(t.inv.fileSystems, CapacityFn(a, t))
  {
    out := [];
    var list := t.inv.fileSystems;
    for i := 0 to |list|
      invariant out == MapConcat(list[..i], CapacityFn(a, t))
    {
      assert list[..i + 1][..i] == list[..i];
      var fs := list[i];
      if !(fs.sizeTotal > 0) {
        continue;
      }
      var labels := FileSystemLabels(a, t.ClusterId(), fs.name, fs.id, t.NasName(fs.nasServerId), fs.nasServerId);
      out := out + [
        Sample(FILE_SYSTEM + "size_total_bytes", labels, fs.sizeTotal as real),
        Sample(FILE_SYSTEM + "size_used_bytes", labels, fs.sizeUsed as real)];
    }
    assert list[..|list|] == list;
  }

  function PortSample(a: string, t: Topology, p: Port, kind: string): Sample
  {
    Sample(PORT + "link_up", PortLabels(a, t.ClusterId(), p.name, p.id, kind, p.applianceId), B2F(p.isLinkUp))
  }

  function PortFn(a: string, t: Topology, kind: string): Port -> seq<Sample>
  {
    p => [PortSample(a, t, p, kind)]
  }

  method DerivePortLinkStatus(a: string, t: Topology) returns (out: seq<Sample>)
    ensures out == MapConcat(t.inv.ethPorts, PortFn(a, t, "eth")) + MapConcat(t.inv.fcPorts, PortFn(a, t, "fc"))
  {
    var eth := PortSamples(a, t, t.inv.ethPorts, "eth");
    var fc := PortSamples(a, t, t.inv.fcPorts, "fc");
    out := eth + fc;
  }

  method PortSamples(a: string, t: Topology, ports: seq<Port>, kind: string) returns (out: seq<Sample>)
    ensures out == MapConcat(ports, PortFn(a, t, kind))
  {
    out := [];
    for i := 0 to |ports|
      invariant out == MapConcat(ports[..i], PortFn(a, t, kind))
    {
      assert ports[..i + 1][..i] == ports[..i];
      out := out + [PortSample(a, t, ports[i], kind)];
    }
    assert ports[..|ports|] == ports;
  }

  // ---------------------------------------------------------------- from queries of their own

  datatype Drive = Drive(id: string, name: string, applianceId: string, lifecycleState: string, wearLevel: Option<real>)

  type Six = v: seq<real> | |v| == 6 witness [0.0, 0.0, 0.0, 0.0, 0.0, 0.0]

  datatype Connection = Connection(state: string, applianceId: string, nodeId: string)

  datatype Witness = Witness(id: string, name: string, state: string, connections: seq<Connection>)

  /** What the cluster's queries answer; None and a missing answer stand for failures. */
  datatype Answers = Answers(
    rules: Option<seq<Rule>>, sessions: Option<seq<Session>>, rates: Rates,
    fileSystemPerf: FileSystem -> Option<Eight>, groupPerf: VolumeGroup -> Option<Eight>,
    clusterSpace: Option<Six>, drives: Option<seq<Drive>>, witnesses: Option<seq<Witness>>)

  const FILE_SYSTEM_NAMES := EightNames(
    FILE_SYSTEM + "read_iops", FILE_SYSTEM + "write_iops", FILE_SYSTEM + "total_iops",
    FILE_SYSTEM + "read_bandwidth_bytes_per_second", FILE_SYSTEM + "write_bandwidth_bytes_per_second",
    FILE_SYSTEM + "read_latency_microseconds", FILE_SYSTEM + "write_latency_microseconds",
    FILE_SYSTEM + "avg_io_size_bytes")

  const GROUP_NAMES := EightNames(
    VOLUME_GROUP + "read_iops", VOLUME_GROUP + "write_iops", VOLUME_GROUP + "total_iops",
    VOLUME_GROUP + "read_bandwidth_bytes_per_second", VOLUME_GROUP + "write_bandwidth_bytes_per_second",
    VOLUME_GROUP + "read_latency_microseconds", VOLUME_GROUP + "write_latency_microseconds",
    VOLUME_GROUP + "avg_io_size_bytes")

  function OrId(name: string, id: string): string
  {
    if name == "" then id else name
  }

  function FileSystemPerfFn(a: string, t: Topology, q: Answers): FileSystem -> seq<Sample>
  {
    (fs: FileSystem) =>
      if !Chartable(fs) || q.fileSystemPerf(fs).None? then []
      else RenderOne(FILE_SYSTEM_NAMES, Block(
        FileSystemLabels(a, t.ClusterId(), OrId(fs.name, fs.id), fs.id, t.NasName(fs.nasServerId), fs.nasServerId),
        q.fileSystemPerf(fs).value))
  }

  function GroupPerfFn(a: string, t: Topology, q: Answers): VolumeGroup -> seq<Sample>
  {
    (vg: VolumeGroup) =>
      if q.groupPerf(vg).None? then []
      else RenderOne(GROUP_NAMES, Block(VolumeGroupLabels(a, t.ClusterId(), OrId(vg.name, vg.id), vg.id),
                                        q.groupPerf(vg).value))
  }

  function ClusterSamples(a: string, t: Topology, q: Answers): seq<Sample>
  {
    if q.clusterSpace.None? then []
    else
      var labels, v := BaseLabels(a, t.ClusterId()), q.clusterSpace.value;
      [Sample(CLUSTER + "physical_total_bytes", labels, v[0]), Sample(CLUSTER + "physical_used_bytes", labels, v[1]),
       Sample(CLUSTER + "logical_provisioned_bytes", labels, v[2]),
       Sample(CLUSTER + "logical_used_bytes", labels, v[3]),
       Sample(CLUSTER + "data_reduction_ratio", labels, v[4]), Sample(CLUSTER + "efficiency_ratio", labels, v[5])]
  }

  function DriveFn(a: string, t: Topology): Drive -> seq<Sample>
  {
    (d: Drive) =>
      if d.id == "" then []
      else
        (if d.lifecycleState == "" then []
         else [Sample(DRIVE_STATE,
                      DriveStateLabels(a, t.ClusterId(), d.id, d.name, d.applianceId, d.lifecycleState), 1.0)]) +
        (if d.wearLevel.None? then []
         else [Sample(DRIVE_WEAR + "level_ratio",
                      DriveLabels(a, t.ClusterId(), d.id, d.name, d.applianceId), d.wearLevel.value / 100.0)])
  }

  function ConnectionFn(a: string, t: Topology, w: Witness): Connection -> seq<Sample>
  {
    (c: Connection) =>
      if c.state == "" then []
      else [Sample(WITNESS_CONNECTION + "state",
                   WitnessConnectionLabels(a, t.ClusterId(), w.id, c.applianceId, c.nodeId, c.state), 1.0)]
  }

  function WitnessFn(a: string, t: Topology): Witness -> seq<Sample>
  {
    (w: Witness) =>
      if w.id == "" then []
      else
        (if w.state == "" then []
         else [Sample(WITNESS_STATE, WitnessStateLabels(a, t.ClusterId(), w.id, w.name, w.state), 1.0)]) +
        MapConcat(w.connections, ConnectionFn(a, t, w))
  }

  function Listed<T>(list: Option<seq<T>>): seq<T>
  {
    if list.Some? then list.value else []
  }

  /** The nine parts in their order; the alert part depends on how a map is ranged over. */
  function CommonParts(a: string, t: Topology, q: Answers, severities: seq<string>): seq<seq<Sample>>
  {
    [MapConcat(t.inv.fileSystems, CapacityFn(a, t)),
     MapConcat(t.inv.ethPorts, PortFn(a, t, "eth")) + MapConcat(t.inv.fcPorts, PortFn(a, t, "fc")),
     Gauges(a, t.ClusterId(), severities, t.alerts),
     ReplicationSamples(a, t, q.rules, q.sessions, q.rates),
     MapConcat(t.inv.fileSystems, FileSystemPerfFn(a, t, q)),
     MapConcat(t.inv.groups, GroupPerfFn(a, t, q)),
     ClusterSamples(a, t, q),
     MapConcat(Listed(q.drives), DriveFn(a, t)),
     MapConcat(Listed(q.witnesses), WitnessFn(a, t))]
  }

  function CommonSamples(a: string, t: Topology, q: Answers, severities: seq<string>): seq<Sample>
  {
    Flatten(CommonParts(a, t, q, severities))
  }

  ghost predicate IsCommon(samples: seq<Sample>, a: string, t: Topology, q: Answers)
  {
    exists severities :: SeverityOrder(severities, t.alerts) && samples == CommonSamples(a, t, q, severities)
  }

  method CommonMetrics(a: string, t: Topology, limit: nat, q: Answers) returns (samples: seq<Sample>)
    requires limit >= 1
    ensures IsCommon(samples, a, t, q)
  {
    var capacity := DeriveFileSystemCapacity(a, t);
    var ports := DerivePortLinkStatus(a, t);
    var alerts := DeriveAlerts(a, t);
    var replication := ReplicationMetrics(a, t, limit, q.rules, q.sessions, q.rates);
    var fileSystems := ParallelSamples(t.inv.fileSystems, limit, FileSystemPerfFn(a, t, q));
    var groups := ParallelSamples(t.inv.groups, limit, GroupPerfFn(a, t, q));
    samples := Flatten([capacity, ports, alerts, replication, fileSystems, groups, ClusterSamples(a, t, q),
                        MapConcat(Listed(q.drives), DriveFn(a, t)), MapConcat(Listed(q.witnesses), WitnessFn(a, t))]);
    ghost var severities :|
      SeverityOrder(severities, t.alerts) && alerts == Gauges(a, t.ClusterId(), severities, t.alerts);
    assert samples == CommonSamples(a, t, q, severities);
  }

  // ---------------------------------------------------------------- one label schema per metric name

  lemma {:induction false} MapConcatGood<T(!new)>(items: seq<T>, fn: T -> seq<Sample>, a: string)
    requires forall x :: Good(fn(x), a)
    ensures Good(MapConcat(items, fn), a)
  {
    if items != [] {
      MapConcatGood(items[..|items| - 1], fn, a);
    }
  }

  lemma OneGood(s: Sample, f: Family, a: string)
    requires FamilyOf(s.name) == Some(f) && Schema(s.labels, f, a)
    ensures Good([s], a)
  {
    assert |LabelNames(s.labels)| == |s.labels|;
  }

  lemma CapacityGood(a: string, t: Topology, fs: FileSystem)
    ensures Good(CapacitySamples(a, t, fs), a)
  {
    if Chartable(fs) {
      FileSystemName("size_total_bytes");
      FileSystemName("size_used_bytes");
      var s := CapacitySamples(a, t, fs);
      OneGood(s[0], Family.FileSystem, a);
      OneGood(s[1], Family.FileSystem, a);
      GoodConcat([s[0]], [s[1]], a);
    }
  }

  lemma PortGood(a: string, t: Topology, p: Port, kind: string)
    ensures Good([PortSample(a, t, p, kind)], a)
  {
    PortName("link_up");
    OneGood(PortSample(a, t, p, kind), Family.Port, a);
  }

  lemma SessionGood(a: string, t: Topology, s: Session)
    ensures Good(SessionSamples(a, t, s), a)
  {
    if s.id != "" {
      SessionName("state");
      OneGood(SessionSamples(a, t, s)[0], Family.ReplicationSession, a);
    }
  }

  lemma RuleGood(a: string, t: Topology, r: Rule)
    ensures Good(RuleSamples(a, t, r), a)
  {
    if RpoSeconds(r.rpo).Some? {
      RuleName("seconds");
      OneGood(RuleSamples(a, t, r)[0], Family.ReplicationRule, a);
    }
  }

  lemma TransferGood(a: string, t: Topology, rates: Rates, id: string)
    ensures Good(TransferFn(a, t, rates)(id), a)
  {
    if rates(id).Some? && rates(id).value != [] {
      var s := TransferFn(a, t, rates)(id);
      assert s == DeriveTransfer(a, t, id, "volume", rates(id).value);
      TransferName("rate_bytes_per_second");
      BacklogName("remaining_bytes");
      OneGood(s[0], Family.ReplicationResource, a);
      OneGood(s[1], Family.ReplicationResource, a);
      GoodConcat([s[0]], [s[1]], a);
    }
  }

  lemma ReplicationGood(a: string, t: Topology, rules: Option<seq<Rule>>, sessions: Option<seq<Session>>, rates: Rates)
    ensures Good(ReplicationSamples(a, t, rules, sessions, rates), a)
  {
    forall r { RuleGood(a, t, r); }
    forall s { SessionGood(a, t, s); }
    forall id { TransferGood(a, t, rates, id); }
    MapConcatGood(Listed(rules), RuleFn(a, t), a);
    MapConcatGood(Listed(sessions), SessionFn(a, t), a);
    MapConcatGood(FirstIds(Listed(sessions)), TransferFn(a, t, rates), a);
  }

  lemma NamesOfEights()
    ensures FILE_SYSTEM_NAMES.AllIn(Family.FileSystem) && GROUP_NAMES.AllIn(Family.VolumeGroup)
  {
    FileSystemName("read_iops"); FileSystemName("write_iops"); FileSystemName("total_iops");
    FileSystemName("avg_io_size_bytes");
    FileSystemName("read_bandwidth_bytes_per_second"); FileSystemName("write_bandwidth_bytes_per_second");
    FileSystemName("read_latency_microseconds"); FileSystemName("write_latency_microseconds");
    GroupName("read_iops"); GroupName("write_iops"); GroupName("total_iops"); GroupName("avg_io_size_bytes");
    GroupName("read_bandwidth_bytes_per_second"); GroupName("write_bandwidth_bytes_per_second");
    GroupName("read_latency_microseconds"); GroupName("write_latency_microseconds");
  }

  lemma FileSystemPerfGood(a: string, t: Topology, q: Answers, fs: FileSystem)
    ensures Good(FileSystemPerfFn(a, t, q)(fs), a)
  {
    if Chartable(fs) && q.fileSystemPerf(fs).Some? {
      NamesOfEights();
      var labels := FileSystemLabels(a, t.ClusterId(), OrId(fs.name, fs.id), fs.id, t.NasName(fs.nasServerId),
                                     fs.nasServerId);
      RenderConforms(FILE_SYSTEM_NAMES, [Block(labels, q.fileSystemPerf(fs).value)], Family.FileSystem, a);
    }
  }

  lemma GroupPerfGood(a: string, t: Topology, q: Answers, vg: VolumeGroup)
    ensures Good(GroupPerfFn(a, t, q)(vg), a)
  {
    if q.groupPerf(vg).Some? {
      NamesOfEights();
      var labels := VolumeGroupLabels(a, t.ClusterId(), OrId(vg.name, vg.id), vg.id);
      RenderConforms(GROUP_NAMES, [Block(labels, q.groupPerf(vg).value)], Family.VolumeGroup, a);
    }
  }

  lemma PerfGood(a: string, t: Topology, q: Answers)
    ensures Good(MapConcat(t.inv.fileSystems, FileSystemPerfFn(a, t, q)), a)
    ensures Good(MapConcat(t.inv.groups, GroupPerfFn(a, t, q)), a)
  {
    forall fs { FileSystemPerfGood(a, t, q, fs); }
    MapConcatGood(t.inv.fileSystems, FileSystemPerfFn(a, t, q), a);
    forall vg { GroupPerfGood(a, t, q, vg); }
    MapConcatGood(t.inv.groups, GroupPerfFn(a, t, q), a);
  }

  lemma ClusterGood(a: string, t: Topology, q: Answers)
    ensures Good(ClusterSamples(a, t, q), a)
  {
    ClusterName("physical_total_bytes"); ClusterName("physical_used_bytes"); ClusterName("logical_provisioned_bytes");
    ClusterName("logical_used_bytes"); ClusterName("data_reduction_ratio"); ClusterName("efficiency_ratio");
    var samples := ClusterSamples(a, t, q);
    forall i | 0 <= i < |samples|
      ensures Good([samples[i]], a)
    {
      OneGood(samples[i], Family.Cluster, a);
    }
    assert forall i :: 0 <= i < |samples| ==> samples[i] == [samples[i]][0];
  }

  lemma DriveGood(a: string, t: Topology, d: Drive)
    ensures Good(DriveFn(a, t)(d), a)
  {
    DriveStateName();
    DriveWearName("level_ratio");
    var labels := DriveStateLabels(a, t.ClusterId(), d.id, d.name, d.applianceId, d.lifecycleState);
    var state := Sample(DRIVE_STATE, labels, 1.0);
    OneGood(state, Family.DriveState, a);
    if d.wearLevel.Some? {
      var wear := Sample(DRIVE_WEAR + "level_ratio",
                         DriveLabels(a, t.ClusterId(), d.id, d.name, d.applianceId), d.wearLevel.value / 100.0);
      OneGood(wear, Family.Drive, a);
      GoodConcat([state], [wear], a);
    }
  }

  lemma ConnectionGood(a: string, t: Topology, w: Witness, c: Connection)
    ensures Good(ConnectionFn(a, t, w)(c), a)
  {
    if c.state != "" {
      WitnessConnectionName("state");
      OneGood(ConnectionFn(a, t, w)(c)[0], Family.WitnessConnection, a);
    }
  }

  lemma WitnessGood(a: string, t: Topology, w: Witness)
    ensures Good(WitnessFn(a, t)(w), a)
  {
    forall c { ConnectionGood(a, t, w, c); }
    WitnessStateName();
    MapConcatGood(w.connections, ConnectionFn(a, t, w), a);
    var state := Sample(WITNESS_STATE, WitnessStateLabels(a, t.ClusterId(), w.id, w.name, w.state), 1.0);
    OneGood(state, Family.WitnessState, a);
    GoodConcat([state], MapConcat(w.connections, ConnectionFn(a, t, w)), a);
  }

  lemma InventoryGood(a: string, t: Topology)
    ensures Good(MapConcat(t.inv.fileSystems, CapacityFn(a, t)), a)
    ensures Good(MapConcat(t.inv.ethPorts, PortFn(a, t, "eth")) + MapConcat(t.inv.fcPorts, PortFn(a, t, "fc")), a)
  {
    forall fs { CapacityGood(a, t, fs); }
    MapConcatGood(t.inv.fileSystems, CapacityFn(a, t), a);
    forall p, kind { PortGood(a, t, p, kind); }
    MapConcatGood(t.inv.ethPorts, PortFn(a, t, "eth"), a);
    MapConcatGood(t.inv.fcPorts, PortFn(a, t, "fc"), a);
    GoodConcat(MapConcat(t.inv.ethPorts, PortFn(a, t, "eth")), MapConcat(t.inv.fcPorts, PortFn(a, t, "fc")), a);
  }

  lemma HardwareGood(a: string, t: Topology, q: Answers)
    ensures Good(MapConcat(Listed(q.drives), DriveFn(a, t)), a)
    ensures Good(MapConcat(Listed(q.witnesses), WitnessFn(a, t)), a)
  {
    forall d { DriveGood(a, t, d); }
    MapConcatGood(Listed(q.drives), DriveFn(a, t), a);
    forall w { WitnessGood(a, t, w); }
    MapConcatGood(Listed(q.witnesses), WitnessFn(a, t), a);
  }

  lemma {:induction false} FlattenGood(parts: seq<seq<Sample>>, a: string)
    requires forall i :: 0 <= i < |parts| ==> Good(parts[i], a)
    ensures Good(Flatten(parts), a)
  {
    if parts != [] {
      var n := |parts| - 1;
      FlattenGood(parts[..n], a);
      GoodConcat(Flatten(parts[..n]), parts[n], a);
    }
  }

  lemma NineGood(p0: seq<Sample>, p1: seq<Sample>, p2: seq<Sample>, p3: seq<Sample>, p4: seq<Sample>,
                 p5: seq<Sample>, p6: seq<Sample>, p7: seq<Sample>, p8: seq<Sample>, a: string)
    requires Good(p0, a) && Good(p1, a) && Good(p2, a) && Good(p3, a) && Good(p4, a)
    requires Good(p5, a) && Good(p6, a) && Good(p7, a) && Good(p8, a)
    ensures Good(Flatten([p0, p1, p2, p3, p4, p5, p6, p7, p8]), a)
  {
    FlattenGood([p0, p1, p2, p3, p4, p5, p6, p7, p8], a);
  }

  lemma OrderedCommonConforms(a: string, t: Topology, q: Answers, severities: seq<string>)
    ensures Good(CommonSamples(a, t, q, severities), a)
  {
    InventoryGood(a, t);
    ReplicationGood(a, t, q.rules, q.sessions, q.rates);
    PerfGood(a, t, q);
    ClusterGood(a, t, q);
    HardwareGood(a, t, q);
    NineGood(MapConcat(t.inv.fileSystems, CapacityFn(a, t)),
             MapConcat(t.inv.ethPorts, PortFn(a, t, "eth")) + MapConcat(t.inv.fcPorts, PortFn(a, t, "fc")),
             Gauges(a, t.ClusterId(), severities, t.alerts),
             ReplicationSamples(a, t, q.rules, q.sessions, q.rates),
             MapConcat(t.inv.fileSystems, FileSystemPerfFn(a, t, q)),
             MapConcat(t.inv.groups, GroupPerfFn(a, t, q)),
             ClusterSamples(a, t, q),
             MapConcat(Listed(q.drives), DriveFn(a, t)),
             MapConcat(Listed(q.witnesses), WitnessFn(a, t)), a);
  }

  /** Every sample of the shared part carries its family's labels and the array's name. */
  lemma CommonConforms(samples: seq<Sample>, a: string, t: Topology, q: Answers)
    requires IsCommon(samples, a, t, q)
    ensures Good(samples, a)
  {
    var severities :| SeverityOrder(severities, t.alerts) && samples == CommonSamples(a, t, q, severities);
    OrderedCommonConforms(a, t, q, severities);
  }
}
