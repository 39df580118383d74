/** Fetching one array's inventory (GetTopology and enumerateAppliances in client.go). */
module Inventories {
  import opened Prelude
  import opened Topologies
  import opened Fanout
  import opened Pagination
  import opened Alerts
  import Snapshots

  /** What the array answers; None stands for a failed call. */
  datatype Source = Source(
    cluster: Option<string>, volumes: Option<seq<Volume>>, groups: Option<seq<VolumeGroup>>, nas: Option<seq<Nas>>,
    fileSystems: Option<seq<FileSystem>>, fcPorts: Option<seq<Port>>, ethPorts: Option<seq<Port>>,
    appliance: string -> Option<Appliance>)
  {
    function Volumes(): seq<Volume> { OrNone(volumes) }

    function FcPorts(): seq<Port> { OrNone(fcPorts) }

    function EthPorts(): seq<Port> { OrNone(ethPorts) }

    /** The appliance ids the inventory mentions. */
    function Referenced(): set<string>
    {
      (set v | v in Volumes() :: v.applianceId) + (set p | p in FcPorts() :: p.applianceId) +
      (set p | p in EthPorts() :: p.applianceId) - {""}
    }

    /** What one appliance query contributes: an answer without an id is dropped. */
    function Fetched(): string -> seq<Appliance>
    {
      id => if appliance(id).Some? && appliance(id).value.id != "" then [appliance(id).value] else []
    }

    function Assembled(order: seq<string>): Inventory
    {
      Inventory.Inventory(if cluster.Some? then cluster.value else "", MapConcat(order, Fetched()), Volumes(),
                          OrNone(groups),
                          OrNone(nas), OrNone(fileSystems), FcPorts(), EthPorts())
    }
  }

  function OrNone<T>(list: Option<seq<T>>): seq<T>
  {
    if list.Some? then list.value else []
  }

  /** Each referenced id once, in any order. */
  ghost predicate QueryOrder(order: seq<string>, s: Source)
  {
    NoDup(order) && Elems(order) == s.Referenced()
  }

  method ReferencedIds(s: Source) returns (seen: set<string>)
    ensures seen == s.Referenced()
  {
    seen := {};
    var volumes, fc, eth := s.Volumes(), s.FcPorts(), s.EthPorts();
    for i := 0 to |volumes|
      invariant seen == (set v | v in volumes[..i] :: v.applianceId) - {""}
    {
      assert volumes[..i + 1] == volumes[..i] + [volumes[i]];
      seen := AddId(seen, volumes[i].applianceId);
    }
    assert volumes[..|volumes|] == volumes;
    ghost var ofVolumes := seen;
    for i := 0 to |fc|
      invariant seen == ofVolumes + ((set p | p in fc[..i] :: p.applianceId) - {""})
    {
      assert fc[..i + 1] == fc[..i] + [fc[i]];
      seen := AddId(seen, fc[i].applianceId);
    }
    assert fc[..|fc|] == fc;
    ghost var withFc := seen;
    for i := 0 to |eth|
      invariant seen == withFc + ((set p | p in eth[..i] :: p.applianceId) - {""})
    {
      assert eth[..i + 1] == eth[..i] + [eth[i]];
      seen := AddId(seen, eth[i].applianceId);
    }
    assert eth[..|eth|] == eth;
  }

  function AddId(seen: set<string>, id: string): set<string>
  {
    if id != "" then seen + {id} else seen
  }

  /** Every referenced appliance is fetched once; the order is that of a Go map. */
  method EnumerateAppliances(s: Source, limit: nat) returns (appliances: seq<Appliance>)
    requires limit >= 1
    ensures exists order :: QueryOrder(order, s) && appliances == MapConcat(order, s.Fetched())
  {
    var seen := ReferencedIds(s);
    var ids := Snapshots.KeysInSomeOrder(map id | id in seen :: ());
    appliances := ParallelSamples(ids, limit, s.Fetched());
    assert QueryOrder(ids, s);
  }

  /** The topology of what the array serves, with the appliances queried in some order. */
  ghost predicate Fetches(t: Topology, s: Source)
  {
    exists order :: QueryOrder(order, s) && IsTopology(t, s.Assembled(order))
  }

  /** Only the cluster call is fatal; every other failure leaves its list empty. */
  method GetTopology(s: Source, limit: nat, get: nat -> Reply<AlertEntry>, pageSize: nat, ghost list: seq<AlertEntry>)
    returns (r: Result<Topology, ()>)
    requires limit >= 1 && pageSize >= 1 && Honours(get, list, pageSize)
    ensures r.Ok? <==> s.cluster.Some?
    ensures r.Ok? ==> Fetches(r.value, s)
    ensures r.Ok? ==> r.value.alerts == Collected(get, pageSize, list)
  {
    if s.cluster.None? {
      return Err(());
    }
    var alerts := FetchAlerts(get, pageSize, list);
    var appliances := EnumerateAppliances(s, limit);
    var t := NewTopology(Inventory.Inventory(s.cluster.value, appliances, s.Volumes(), OrNone(s.groups), OrNone(s.nas),
                                             OrNone(s.fileSystems), s.FcPorts(), s.EthPorts()));
    r := Ok(t.(alerts := alerts));
    ghost var order :| QueryOrder(order, s) && appliances == MapConcat(order, s.Fetched());
    assert IsTopology(r.value, s.Assembled(order));
  }

  /** The server answers a query about an appliance with that appliance. */
  ghost predicate Truthful(s: Source)
  {
    forall id :: s.appliance(id).Some? ==> s.appliance(id).value.id == id
  }

  lemma AppliancesSnoc(s: seq<Appliance>, x: Appliance)
    ensures ApplianceNames(s + [x]) == ApplianceNames(s) + [Entry(x.id, x.name)]
  {
    assert (s + [x])[..|s|] == s;
  }

  lemma LastOfSnoc(entries: seq<Entry>, e: Entry, key: string)
    ensures LastOf(entries + [e], key) == if e.key == key then Some(e.value) else LastOf(entries, key)
  {
    assert (entries + [e])[..|entries|] == entries;
  }

  /** One more query answered. */
  lemma FetchedSnoc(s: Source, order: seq<string>, last: string, id: string)
    requires Truthful(s) && last != ""
    ensures LastOf(ApplianceNames(MapConcat(order + [last], s.Fetched())), id) ==
      if last == id && s.appliance(id).Some? then Some(s.appliance(id).value.name)
      else LastOf(ApplianceNames(MapConcat(order, s.Fetched())), id)
  {
    assert (order + [last])[..|order|] == order;
    var rest := MapConcat(order, s.Fetched());
    if s.appliance(last).Some? {
      var x := s.appliance(last).value;
      assert MapConcat(order + [last], s.Fetched()) == rest + [x];
      AppliancesSnoc(rest, x);
      LastOfSnoc(ApplianceNames(rest), Entry(x.id, x.name), id);
    } else {
      assert MapConcat(order + [last], s.Fetched()) == rest;
    }
  }

  lemma {:induction false} FetchedNames(s: Source, order: seq<string>, id: string)
    requires Truthful(s) && forall k :: 0 <= k < |order| ==> order[k] != ""
    ensures LastOf(ApplianceNames(MapConcat(order, s.Fetched())), id) ==
      if id in order && s.appliance(id).Some? then Some(s.appliance(id).value.name) else None
  {
    if order != [] {
      var n := |order| - 1;
      assert order == order[..n] + [order[n]];
      FetchedNames(s, order[..n], id);
      FetchedSnoc(s, order[..n], order[n], id);
    }
  }

  /** The order of the queries does not matter: an appliance the inventory mentions has the name the
      server gives it, and any other has none. */
  lemma ApplianceNamesAreTheServers(s: Source, t: Topology, id: string)
    requires Truthful(s) && Fetches(t, s)
    ensures t.ApplianceName(id) ==
      if id in s.Referenced() && s.appliance(id).Some? then s.appliance(id).value.name else ""
  {
    var order :| QueryOrder(order, s) && IsTopology(t, s.Assembled(order));
    forall k | 0 <= k < |order|
      ensures order[k] != ""
    {
      assert order[k] in Elems(order);
    }
    assert id in order <==> id in Elems(order);
    FetchedNames(s, order, id);
  }

  // ---------------------------------------------------------------- what is in the topology

  /** Some volume or port names this appliance. */
  predicate Mentioned(s: Source, id: string)
  {
    || (s.volumes.Some? && exists v :: v in s.volumes.value && v.applianceId == id)
    || (s.fcPorts.Some? && exists p :: p in s.fcPorts.value && p.applianceId == id)
    || (s.ethPorts.Some? && exists p :: p in s.ethPorts.value && p.applianceId == id)
  }

  lemma ReferencedIff(s: Source, id: string)
    ensures id in s.Referenced() <==> id != "" && Mentioned(s, id)
  {
  }

  lemma {:induction false} FetchedIff(s: Source, order: seq<string>, x: Appliance)
    ensures x in MapConcat(order, s.Fetched()) <==>
      exists id :: id in order && s.appliance(id) == Some(x) && x.id != ""
  {
    if order != [] {
      var n := |order| - 1;
      FetchedIff(s, order[..n], x);
      assert forall id :: id in order <==> id in order[..n] || id == order[n];
    }
  }

  predicate Is<T(==)>(list: seq<T>, answer: Option<seq<T>>)
  {
    if answer.Some? then list == answer.value else list == []
  }

  /** Every list of the topology is the one its own call answered, and empty when that call failed. The
      appliances are those the server has under an id that some volume or port names. */
  lemma TopologyIsServed(s: Source, t: Topology)
    requires Fetches(t, s)
    ensures s.cluster.Some? ==> t.ClusterId() == s.cluster.value
    ensures Is(t.inv.volumes, s.volumes) && Is(t.inv.groups, s.groups) && Is(t.inv.nas, s.nas)
    ensures Is(t.inv.fileSystems, s.fileSystems) && Is(t.inv.fcPorts, s.fcPorts) && Is(t.inv.ethPorts, s.ethPorts)
    ensures forall x :: x in t.inv.appliances <==>
      exists id :: id != "" && Mentioned(s, id) && s.appliance(id) == Some(x) && x.id != ""
  {
    var order :| QueryOrder(order, s) && IsTopology(t, s.Assembled(order));
    forall x
      ensures x in t.inv.appliances <==>
        exists id :: id != "" && Mentioned(s, id) && s.appliance(id) == Some(x) && x.id != ""
    {
      FetchedIff(s, order, x);
      forall id
        ensures id in order <==> id != "" && Mentioned(s, id)
      {
        ReferencedIff(s, id);
        assert id in order <==> id in Elems(order);
      }
    }
  }
}
