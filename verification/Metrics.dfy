/** Samples, the label builders of metrics.go, and the one label schema of each metric family. */
module Metrics {
  import opened Prelude

  datatype Label = Label(name: string, value: string)

  /** One exported data point. */
  datatype Sample = Sample(name: string, labels: seq<Label>, value: real)

  /** These label keys in this order, the first one naming the array. */
  predicate Schema(labels: seq<Label>, f: Family, arrayName: string)
  {
    LabelNames(labels) == Keys(f) && labels[0] == Label("array", arrayName)
  }

  function BaseLabels(arrayName: string, clusterId: string): (labels: seq<Label>)
    ensures Schema(labels, Cluster, arrayName)
    ensures LabelValues(labels) == [arrayName, clusterId]
  {
    [Label("array", arrayName), Label("cluster_id", clusterId)]
  }

  function VolumeLabels(arrayName: string, clusterId: string, volName: string, volId: string,
                        applId: string, applName: string, vgName: string, vgId: string): (labels: seq<Label>)
    ensures Schema(labels, Volume, arrayName)
    ensures LabelValues(labels) == [arrayName, clusterId, volName, volId, applId, applName, vgName, vgId]
  {
    BaseLabels(arrayName, clusterId) +
    [Label("volume_name", volName), Label("volume_id", volId), Label("appliance_id", applId),
     Label("appliance_name", applName), Label("volume_group_name", vgName), Label("volume_group_id", vgId)]
  }

  function ApplianceLabels(arrayName: string, clusterId: string, applName: string, applId: string,
                           serviceTag: string): (labels: seq<Label>)
    ensures Schema(labels, Appliance, arrayName)
    ensures LabelValues(labels) == [arrayName, clusterId, applName, applId, serviceTag]
  {
    BaseLabels(arrayName, clusterId) +
    [Label("appliance_name", applName), Label("appliance_id", applId), Label("service_tag", serviceTag)]
  }

  function FileSystemLabels(arrayName: string, clusterId: string, fsName: string, fsId: string,
                            nasName: string, nasId: string): (labels: seq<Label>)
    ensures Schema(labels, FileSystem, arrayName)
    ensures LabelValues(labels) == [arrayName, clusterId, fsName, fsId, nasName, nasId]
  {
    BaseLabels(arrayName, clusterId) +
    [Label("file_system_name", fsName), Label("file_system_id", fsId),
     Label("nas_server_name", nasName), Label("nas_server_id", nasId)]
  }

  function PortLabels(arrayName: string, clusterId: string, portName: string, portId: string,
                      kind: string, applId: string): (labels: seq<Label>)
    ensures Schema(labels, Port, arrayName)
    ensures LabelValues(labels) == [arrayName, clusterId, portName, portId, kind, applId]
  {
    BaseLabels(arrayName, clusterId) +
    [Label("port_name", portName), Label("port_id", portId), Label("port_type", kind), Label("appliance_id", applId)]
  }

  function AlertLabels(arrayName: string, clusterId: string, severity: string): (labels: seq<Label>)
    ensures Schema(labels, Alert, arrayName)
    ensures LabelValues(labels) == [arrayName, clusterId, severity]
  {
    BaseLabels(arrayName, clusterId) + [Label("severity", severity)]
  }

  function DriveLabels(arrayName: string, clusterId: string, driveId: string, driveName: string,
                       applId: string): (labels: seq<Label>)
    ensures Schema(labels, Drive, arrayName)
    ensures LabelValues(labels) == [arrayName, clusterId, driveId, driveName, applId]
  {
    BaseLabels(arrayName, clusterId) +
    [Label("drive_id", driveId), Label("drive_name", driveName), Label("appliance_id", applId)]
  }

  function DriveStateLabels(arrayName: string, clusterId: string, driveId: string, driveName: string,
                            applId: string, state: string): (labels: seq<Label>)
    ensures Schema(labels, DriveState, arrayName)
    ensures LabelValues(labels) == [arrayName, clusterId, driveId, driveName, applId, state]
  {
    DriveLabels(arrayName, clusterId, driveId, driveName, applId) + [Label("state", state)]
  }

  function WitnessStateLabels(arrayName: string, clusterId: string, witnessId: string, witnessName: string,
                              state: string): (labels: seq<Label>)
    ensures Schema(labels, WitnessState, arrayName)
    ensures LabelValues(labels) == [arrayName, clusterId, witnessId, witnessName, state]
  {
    BaseLabels(arrayName, clusterId) +
    [Label("witness_id", witnessId), Label("witness_name", witnessName), Label("state", state)]
  }

  function WitnessConnectionLabels(arrayName: string, clusterId: string, witnessId: string, applId: string,
                                   nodeId: string, state: string): (labels: seq<Label>)
    ensures Schema(labels, WitnessConnection, arrayName)
    ensures LabelValues(labels) == [arrayName, clusterId, witnessId, applId, nodeId, state]
  {
    BaseLabels(arrayName, clusterId) +
    [Label("witness_id", witnessId), Label("appliance_id", applId), Label("node_id", nodeId), Label("state", state)]
  }

  function VolumeGroupLabels(arrayName: string, clusterId: string, vgName: string, vgId: string): (labels: seq<Label>)
    ensures Schema(labels, VolumeGroup, arrayName)
    ensures LabelValues(labels) == [arrayName, clusterId, vgName, vgId]
  {
    BaseLabels(arrayName, clusterId) + [Label("volume_group_name", vgName), Label("volume_group_id", vgId)]
  }

  function ReplicationSessionLabels(arrayName: string, clusterId: string, sessionId: string, resourceId: string,
                                    resourceName: string, resourceType: string, role: string, sessionType: string,
                                    remoteSystemId: string, state: string): (labels: seq<Label>)
    ensures Schema(labels, ReplicationSession, arrayName)
    ensures LabelValues(labels) == [arrayName, clusterId, sessionId, resourceId, resourceName, resourceType, role,
                                    sessionType, remoteSystemId, state]
  {
    BaseLabels(arrayName, clusterId) +
    [Label("session_id", sessionId), Label("local_resource_id", resourceId), Label("local_resource_name", resourceName),
     Label("resource_type", resourceType), Label("role", role), Label("type", sessionType),
     Label("remote_system_id", remoteSystemId), Label("state", state)]
  }

  function ReplicationResourceLabels(arrayName: string, clusterId: string, resourceId: string,
                                     resourceName: string, resourceType: string): (labels: seq<Label>)
    ensures Schema(labels, ReplicationResource, arrayName)
    ensures LabelValues(labels) == [arrayName, clusterId, resourceId, resourceName, resourceType]
  {
    BaseLabels(arrayName, clusterId) +
    [Label("resource_id", resourceId), Label("resource_name", resourceName), Label("resource_type", resourceType)]
  }

  function ReplicationRuleLabels(arrayName: string, clusterId: string, ruleId: string,
                                 remoteSystemId: string): (labels: seq<Label>)
    ensures Schema(labels, ReplicationRule, arrayName)
    ensures LabelValues(labels) == [arrayName, clusterId, ruleId, remoteSystemId]
  {
    BaseLabels(arrayName, clusterId) + [Label("rule_id", ruleId), Label("remote_system_id", remoteSystemId)]
  }

  function B2F(b: bool): real
  {
    if b then 1.0 else 0.0
  }

  // ---------------------------------------------------------------- label schemas

  datatype Family =
    | Volume | VolumeGroup | Appliance | FileSystem | Port | Alert | Cluster
    | ReplicationSession | ReplicationRule | ReplicationResource
    | Drive | DriveState | WitnessState | WitnessConnection

  function Keys(f: Family): seq<string>
  {
    ["array", "cluster_id"] +
    match f
    case Volume => ["volume_name", "volume_id", "appliance_id", "appliance_name", "volume_group_name",
                    "volume_group_id"]
    case VolumeGroup => ["volume_group_name", "volume_group_id"]
    case Appliance => ["appliance_name", "appliance_id", "service_tag"]
    case FileSystem => ["file_system_name", "file_system_id", "nas_server_name", "nas_server_id"]
    case Port => ["port_name", "port_id", "port_type", "appliance_id"]
    case Alert => ["severity"]
    case Cluster => []
    case ReplicationSession =>
      ["session_id", "local_resource_id", "local_resource_name", "resource_type", "role", "type", "remote_system_id",
       "state"]
    case ReplicationRule => ["rule_id", "remote_system_id"]
    case ReplicationResource => ["resource_id", "resource_name", "resource_type"]
    case Drive => ["drive_id", "drive_name", "appliance_id"]
    case DriveState => ["drive_id", "drive_name", "appliance_id", "state"]
    case WitnessState => ["witness_id", "witness_name", "state"]
    case WitnessConnection => ["witness_id", "appliance_id", "node_id", "state"]
  }

  // The metric names, by their beginnings. Names of one family share its prefix, or one of its two.
  const VOLUME_GROUP := "powerstore_volume_group_"
  const VOLUME := "powerstore_volume_"
  const APPLIANCE := "powerstore_appliance_"
  const FILE_SYSTEM := "powerstore_file_system_"
  const PORT := "powerstore_port_"
  const ALERT := "powerstore_alert_"
  const CLUSTER := "powerstore_cluster_"
  const REPLICATION_SESSION := "powerstore_replication_session_"
  const REPLICATION_RULE := "powerstore_replication_rpo_"
  const REPLICATION_TRANSFER := "powerstore_replication_transfer_"
  const REPLICATION_BACKLOG := "powerstore_replication_data_"
  const DRIVE_STATE := "powerstore_drive_state"
  const DRIVE_WEAR := "powerstore_drive_wear_"
  const WITNESS_STATE := "powerstore_metro_witness_state"
  const WITNESS_CONNECTION := "powerstore_metro_witness_connection_"

  const PREFIXES: seq<(string, Family)> := [
    (VOLUME_GROUP, VolumeGroup), (VOLUME, Volume), (APPLIANCE, Appliance), (FILE_SYSTEM, FileSystem), (PORT, Port),
    (ALERT, Alert), (CLUSTER, Cluster), (REPLICATION_SESSION, ReplicationSession), (REPLICATION_RULE, ReplicationRule),
    (REPLICATION_TRANSFER, ReplicationResource), (REPLICATION_BACKLOG, ReplicationResource),
    (DRIVE_STATE, DriveState), (DRIVE_WEAR, Drive),
    (WITNESS_STATE, WitnessState), (WITNESS_CONNECTION, WitnessConnection)]

  /** The first row whose prefix the name has. */
  function Find(rows: seq<(string, Family)>, name: string): Option<Family>
  {
    if rows == [] then None
    else if rows[0].0 <= name then Some(rows[0].1)
    else Find(rows[1..], name)
  }

  /** The family a metric name belongs to. The health metrics of prometheus.go belong to none. */
  function FamilyOf(name: string): Option<Family>
  {
    Find(PREFIXES, name)
  }

  lemma {:induction false} FindAt(rows: seq<(string, Family)>, name: string, k: nat)
    requires k < |rows| && rows[k].0 <= name && forall i :: 0 <= i < k ==> !(rows[i].0 <= name)
    ensures Find(rows, name) == Some(rows[k].1)
  {
    if k > 0 {
      FindAt(rows[1..], name, k - 1);
    }
  }

  lemma {:induction false} FindNone(rows: seq<(string, Family)>, name: string)
    requires forall i :: 0 <= i < |rows| ==> !(rows[i].0 <= name)
    ensures Find(rows, name) == None
  {
    if rows != [] {
      FindNone(rows[1..], name);
    }
  }

  /** The letter after "powerstore_" leaves few prefixes over. */
  lemma FirstLetter(name: string)
    requires |name| > 11
    ensures VOLUME_GROUP <= name || VOLUME <= name ==> name[11] == 'v'
    ensures APPLIANCE <= name || ALERT <= name ==> name[11] == 'a'
    ensures FILE_SYSTEM <= name ==> name[11] == 'f'
    ensures PORT <= name ==> name[11] == 'p'
    ensures CLUSTER <= name ==> name[11] == 'c'
    ensures DRIVE_STATE <= name || DRIVE_WEAR <= name ==> name[11] == 'd'
    ensures WITNESS_STATE <= name || WITNESS_CONNECTION <= name ==> name[11] == 'm'
  {
    assert VOLUME_GROUP[11] == VOLUME[11] == 'v' && APPLIANCE[11] == ALERT[11] == 'a' && FILE_SYSTEM[11] == 'f';
    assert PORT[11] == 'p' && CLUSTER[11] == 'c' && DRIVE_STATE[11] == DRIVE_WEAR[11] == 'd';
    assert WITNESS_STATE[11] == WITNESS_CONNECTION[11] == 'm';
  }

  lemma ReplicationLetter(name: string)
    requires |name| > 23
    ensures REPLICATION_SESSION <= name ==> name[11] == 'r' && name[23] == 's'
    ensures REPLICATION_RULE <= name ==> name[11] == 'r' && name[23] == 'r'
    ensures REPLICATION_TRANSFER <= name ==> name[11] == 'r' && name[23] == 't'
    ensures REPLICATION_BACKLOG <= name ==> name[11] == 'r' && name[23] == 'd'
  {
    assert REPLICATION_SESSION[11] == REPLICATION_RULE[11] == 'r';
    assert REPLICATION_TRANSFER[11] == REPLICATION_BACKLOG[11] == 'r';
    assert REPLICATION_SESSION[23] == 's' && REPLICATION_RULE[23] == 'r';
    assert REPLICATION_TRANSFER[23] == 't' && REPLICATION_BACKLOG[23] == 'd';
  }

  lemma NotReplication(name: string)
    requires |name| > 11 && name[11] != 'r'
    ensures !(REPLICATION_SESSION <= name) && !(REPLICATION_RULE <= name)
    ensures !(REPLICATION_TRANSFER <= name) && !(REPLICATION_BACKLOG <= name)
  {
    assert REPLICATION_SESSION[11] == REPLICATION_RULE[11] == 'r';
    assert REPLICATION_TRANSFER[11] == REPLICATION_BACKLOG[11] == 'r';
  }

  lemma Prefixed(prefix: string, suffix: string)
    ensures prefix <= prefix + suffix
    ensures forall k :: 0 <= k < |prefix| ==> (prefix + suffix)[k] == prefix[k]
  {
  }

  lemma VolumeName(suffix: string)
    requires suffix != "" && suffix[0] != 'g'
    ensures FamilyOf(VOLUME + suffix) == Some(Volume)
  {
    Prefixed(VOLUME, suffix);
    assert VOLUME_GROUP[18] == 'g' && (VOLUME + suffix)[18] == suffix[0];
    FindAt(PREFIXES, VOLUME + suffix, 1);
  }

  lemma GroupName(suffix: string)
    ensures FamilyOf(VOLUME_GROUP + suffix) == Some(VolumeGroup)
  {
    Prefixed(VOLUME_GROUP, suffix);
    FindAt(PREFIXES, VOLUME_GROUP + suffix, 0);
  }

  lemma ApplianceName(suffix: string)
    ensures FamilyOf(APPLIANCE + suffix) == Some(Appliance)
  {
    Prefixed(APPLIANCE, suffix);
    assert APPLIANCE[11] == 'a';
    FirstLetter(APPLIANCE + suffix);
    FindAt(PREFIXES, APPLIANCE + suffix, 2);
  }

  lemma FileSystemName(suffix: string)
    ensures FamilyOf(FILE_SYSTEM + suffix) == Some(FileSystem)
  {
    Prefixed(FILE_SYSTEM, suffix);
    assert FILE_SYSTEM[11] == 'f';
    FirstLetter(FILE_SYSTEM + suffix);
    FindAt(PREFIXES, FILE_SYSTEM + suffix, 3);
  }

  lemma PortName(suffix: string)
    ensures FamilyOf(PORT + suffix) == Some(Port)
  {
    Prefixed(PORT, suffix);
    assert PORT[11] == 'p';
    FirstLetter(PORT + suffix);
    FindAt(PREFIXES, PORT + suffix, 4);
  }

  lemma AlertName(suffix: string)
    ensures FamilyOf(ALERT + suffix) == Some(Alert)
  {
    Prefixed(ALERT, suffix);
    assert ALERT[11] == 'a' && ALERT[12] == 'l' && APPLIANCE[12] == 'p';
    FirstLetter(ALERT + suffix);
    FindAt(PREFIXES, ALERT + suffix, 5);
  }

  lemma ClusterName(suffix: string)
    ensures FamilyOf(CLUSTER + suffix) == Some(Cluster)
  {
    Prefixed(CLUSTER, suffix);
    assert CLUSTER[11] == 'c';
    FirstLetter(CLUSTER + suffix);
    FindAt(PREFIXES, CLUSTER + suffix, 6);
  }

  lemma SessionName(suffix: string)
    ensures FamilyOf(REPLICATION_SESSION + suffix) == Some(ReplicationSession)
  {
    Prefixed(REPLICATION_SESSION, suffix);
    assert REPLICATION_SESSION[11] == 'r';
    FirstLetter(REPLICATION_SESSION + suffix);
    FindAt(PREFIXES, REPLICATION_SESSION + suffix, 7);
  }

  lemma RuleName(suffix: string)
    ensures FamilyOf(REPLICATION_RULE + suffix) == Some(ReplicationRule)
  {
    Prefixed(REPLICATION_RULE, suffix);
    assert REPLICATION_RULE[11] == 'r' && REPLICATION_RULE[23] == 'r';
    FirstLetter(REPLICATION_RULE + suffix);
    ReplicationLetter(REPLICATION_RULE + suffix);
    FindAt(PREFIXES, REPLICATION_RULE + suffix, 8);
  }

  lemma TransferName(suffix: string)
    ensures FamilyOf(REPLICATION_TRANSFER + suffix) == Some(ReplicationResource)
  {
    Prefixed(REPLICATION_TRANSFER, suffix);
    assert REPLICATION_TRANSFER[11] == 'r' && REPLICATION_TRANSFER[23] == 't';
    FirstLetter(REPLICATION_TRANSFER + suffix);
    ReplicationLetter(REPLICATION_TRANSFER + suffix);
    FindAt(PREFIXES, REPLICATION_TRANSFER + suffix, 9);
  }

  lemma BacklogName(suffix: string)
    ensures FamilyOf(REPLICATION_BACKLOG + suffix) == Some(ReplicationResource)
  {
    Prefixed(REPLICATION_BACKLOG, suffix);
    assert REPLICATION_BACKLOG[11] == 'r' && REPLICATION_BACKLOG[23] == 'd';
    FirstLetter(REPLICATION_BACKLOG + suffix);
    ReplicationLetter(REPLICATION_BACKLOG + suffix);
    FindAt(PREFIXES, REPLICATION_BACKLOG + suffix, 10);
  }

  lemma DriveStateName()
    ensures FamilyOf(DRIVE_STATE) == Some(DriveState)
  {
    assert DRIVE_STATE[11] == 'd';
    FirstLetter(DRIVE_STATE);
    NotReplication(DRIVE_STATE);
    FindAt(PREFIXES, DRIVE_STATE, 11);
  }

  lemma DriveWearName(suffix: string)
    ensures FamilyOf(DRIVE_WEAR + suffix) == Some(Drive)
  {
    Prefixed(DRIVE_WEAR, suffix);
    assert DRIVE_WEAR[11] == 'd' && DRIVE_STATE[17] == 's' && DRIVE_WEAR[17] == 'w';
    FirstLetter(DRIVE_WEAR + suffix);
    NotReplication(DRIVE_WEAR + suffix);
    FindAt(PREFIXES, DRIVE_WEAR + suffix, 12);
  }

  lemma WitnessStateName()
    ensures FamilyOf(WITNESS_STATE) == Some(WitnessState)
  {
    assert WITNESS_STATE[11] == 'm';
    FirstLetter(WITNESS_STATE);
    NotReplication(WITNESS_STATE);
    FindAt(PREFIXES, WITNESS_STATE, 13);
  }

  lemma WitnessConnectionName(suffix: string)
    ensures FamilyOf(WITNESS_CONNECTION + suffix) == Some(WitnessConnection)
  {
    Prefixed(WITNESS_CONNECTION, suffix);
    assert WITNESS_CONNECTION[11] == 'm' && WITNESS_STATE[25] == 's' && WITNESS_CONNECTION[25] == 'c';
    FirstLetter(WITNESS_CONNECTION + suffix);
    NotReplication(WITNESS_CONNECTION + suffix);
    FindAt(PREFIXES, WITNESS_CONNECTION + suffix, 14);
  }

  function LabelNames(labels: seq<Label>): (names: seq<string>)
    ensures |names| == |labels|
  {
    seq(|labels|, i requires 0 <= i < |labels| => labels[i].name)
  }

  function LabelValues(labels: seq<Label>): (values: seq<string>)
    ensures |values| == |labels|
  {
    seq(|labels|, i requires 0 <= i < |labels| => labels[i].value)
  }

  /** Keys and values make up the labels. */
  lemma SameLabels(x: seq<Label>, y: seq<Label>)
    requires LabelNames(x) == LabelNames(y) && LabelValues(x) == LabelValues(y)
    ensures x == y
  {
    assert |x| == |LabelNames(x)| && |y| == |LabelNames(y)|;
    forall i | 0 <= i < |x|
      ensures x[i] == y[i]
    {
      assert LabelNames(x)[i] == LabelNames(y)[i] && LabelValues(x)[i] == LabelValues(y)[i];
    }
  }

  /** The sample carries exactly the label keys of its metric's family, in order. */
  predicate Conforms(s: Sample)
  {
    FamilyOf(s.name).Some? && LabelNames(s.labels) == Keys(FamilyOf(s.name).value)
  }

  predicate AllConform(samples: seq<Sample>)
  {
    forall i :: 0 <= i < |samples| ==> Conforms(samples[i])
  }

  predicate OfArray(samples: seq<Sample>, arrayName: string)
  {
    forall i :: 0 <= i < |samples| ==> samples[i].labels != [] && samples[i].labels[0] == Label("array", arrayName)
  }

  /** The samples carry their families' labels and the array's name. */
  predicate Good(samples: seq<Sample>, arrayName: string)
  {
    AllConform(samples) && OfArray(samples, arrayName)
  }

  lemma GoodConcat(x: seq<Sample>, y: seq<Sample>, arrayName: string)
    requires Good(x, arrayName) && Good(y, arrayName)
    ensures Good(x + y, arrayName)
  {
  }
}
