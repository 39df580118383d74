/** ArrayClient as a whole: whatever an array serves, what the collector gets from its client is
    well labelled. */
module Clients {
  import opened Prelude
  import opened Metrics
  import opened Topologies
  import opened Pagination
  import opened PerEntity
  import opened Bulk
  import opened Paths
  import opened Common
  import opened Inventories
  import Alerts
  import opened Cycle

  /** Everything one array serves during one cycle, call by call; the shared queries are made
      anew by whichever path runs. */
  datatype World = World(
    source: Source, alerts: nat -> Pagination.Reply<AlertEntry>, bulkCapable: bool, archive: Option<seq<ArchiveEntry>>,
    perf: nat -> Option<seq<AppliancePerf>>, space: nat -> Option<seq<ApplianceSpace>>,
    volume: nat -> Option<seq<VolumePerf>>,
    onBulk: Answers, onPerEntity: Answers, time: int)

  /** What the bulk path gives: everything in the archive and the shared part. */
  ghost predicate IsBulkReply(r: Result<seq<Sample>, string>, a: string, t: Topology, w: World, parse: Parser)
  {
    if w.archive.Some? && AllParse(w.archive.value) then
      r.Ok? && exists common ::
        IsCommon(common, a, t, w.onBulk) && r.value == BulkSamples(a, t, w.archive.value, parse, common)
    else r.Err?
  }

  method BulkReply(a: string, limit: nat, t: Topology, w: World, parse: Parser) returns (r: Result<seq<Sample>, string>)
    requires limit >= 1
    ensures IsBulkReply(r, a, t, w, parse)
    ensures r.Ok? ==> Good(r.value, a)
  {
    var common := CommonMetrics(a, t, limit, w.onBulk);
    CommonConforms(common, a, t, w.onBulk);
    var bulk := BulkMetrics(a, t, w.archive, parse, common);
    if bulk.Err? {
      return Err("bulk metrics failed");
    }
    BulkConforms(a, t, w.archive.value, parse, common);
    r := Ok(bulk.value);
  }

  /** One query per appliance and per volume of the inventory, in its order. */
  function QueriesOf(t: Topology, w: World): (q: Queries)
    ensures |q.perf| == |q.space| == |t.inv.appliances| && |q.volume| == |t.inv.volumes|
    ensures forall i :: 0 <= i < |q.perf| ==> q.perf[i] == w.perf(i) && q.space[i] == w.space(i)
    ensures forall i :: 0 <= i < |q.volume| ==> q.volume[i] == w.volume(i)
  {
    Queries(seq(|t.inv.appliances|, i requires 0 <= i < |t.inv.appliances| => w.perf(i)),
            seq(|t.inv.appliances|, i requires 0 <= i < |t.inv.appliances| => w.space(i)),
            seq(|t.inv.volumes|, i requires 0 <= i < |t.inv.volumes| => w.volume(i)))
  }

  /** What the per-entity path gives: what was answered and the shared part. */
  ghost predicate IsPerEntityReply(samples: seq<Sample>, a: string, t: Topology, w: World)
  {
    exists common :: IsCommon(common, a, t, w.onPerEntity) && IsPerEntity(samples, a, t, QueriesOf(t, w), common)
  }

  method PerEntityReply(a: string, limit: nat, t: Topology, w: World) returns (samples: seq<Sample>)
    requires limit >= 1
    ensures IsPerEntityReply(samples, a, t, w)
    ensures Good(samples, a)
  {
    var common := CommonMetrics(a, t, limit, w.onPerEntity);
    CommonConforms(common, a, t, w.onPerEntity);
    var q := QueriesOf(t, w);
    samples := PerEntityMetrics(a, t, q, common);
    PerEntityConforms(a, t, q, common, samples);
  }

  /** The answers a client gives: its inventory with every alert of the server, both paths over that inventory;
      always well labelled. */
  method ClientReply(a: string, limit: nat, w: World, parse: Parser, pageSize: nat, ghost list: seq<AlertEntry>)
    returns (q: Cycle.Reply)
    requires limit >= 1 && pageSize >= 1 && Honours(w.alerts, list, pageSize)
    ensures WellLabelled(a, q)
    ensures q.topology.Ok? <==> w.source.cluster.Some?
    ensures q.topology.Ok? ==>
      var t := q.topology.value;
      && Fetches(t, w.source) && t.alerts == Alerts.Collected(w.alerts, pageSize, list)
      && q.bulkCapable == w.bulkCapable && IsBulkReply(q.bulk, a, t, w, parse)
      && q.perEntity.Ok? && IsPerEntityReply(q.perEntity.value, a, t, w)
    ensures q.scrapedAt == w.time
  {
    var topology := GetTopology(w.source, limit, w.alerts, pageSize, list);
    if topology.Err? {
      return Cycle.Reply(Err("topology fetch failed"), false, Err(""), Err(""), w.time);
    }
    var bulk := BulkReply(a, limit, topology.value, w, parse);
    var perEntity := PerEntityReply(a, limit, topology.value, w);
    q := Cycle.Reply(Ok(topology.value), w.bulkCapable, bulk, Ok(perEntity), w.time);
  }
}
