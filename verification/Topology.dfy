/** One array's inventory and the lookup indices built from it (topology.go). */
module Topologies {
  import opened Prelude

  datatype GroupRef = GroupRef(id: string, name: string)

  datatype Volume = Volume(id: string, name: string, applianceId: string, groups: seq<GroupRef>)

  datatype VolumeGroup = VolumeGroup(id: string, name: string, members: seq<string>)

  datatype Appliance = Appliance(id: string, name: string, serviceTag: string)

  datatype Nas = Nas(id: string, name: string)

  datatype FileSystem = FileSystem(id: string, name: string, nasServerId: string, sizeTotal: int, sizeUsed: int)

  datatype Port = Port(id: string, name: string, applianceId: string, isLinkUp: bool)

  datatype AlertEntry = AlertEntry(state: string, severity: string)

  datatype Inventory = Inventory(
    clusterId: string, appliances: seq<Appliance>, volumes: seq<Volume>, groups: seq<VolumeGroup>,
    nas: seq<Nas>, fileSystems: seq<FileSystem>, fcPorts: seq<Port>, ethPorts: seq<Port>)

  datatype Topology = Topology(
    inv: Inventory,
    alerts: seq<AlertEntry>,
    applianceName: map<string, string>,
    applianceServiceTag: map<string, string>,
    vgName: map<string, string>,
    volumeVgId: map<string, string>,
    volumeName: map<string, string>,
    volumeApplianceId: map<string, string>,
    nasName: map<string, string>,
    fsName: map<string, string>)
  {
    // A missing key of a Go map reads as the empty string.
    function ClusterId(): string { inv.clusterId }

    function ApplianceName(id: string): string { Lookup(applianceName, id) }

    function ApplianceServiceTag(id: string): string { Lookup(applianceServiceTag, id) }

    function NasName(id: string): string { Lookup(nasName, id) }

    /** Group id and group name of a volume. */
    function VolumeGroupOf(volId: string): (string, string)
    {
      var vgId := Lookup(volumeVgId, volId);
      (vgId, Lookup(vgName, vgId))
    }

    /** Name, appliance id, and whether the inventory knows the volume. */
    function VolumeInfo(id: string): (string, string, bool)
    {
      (Lookup(volumeName, id), Lookup(volumeApplianceId, id), id in volumeName)
    }

    function ResourceName(resourceType: string, id: string): (r: string)
      ensures r == "" ==> id == ""
    {
      var name :=
        if resourceType == "volume" then Lookup(volumeName, id)
        else if resourceType == "volume_group" then Lookup(vgName, id)
        else if resourceType == "file_system" then Lookup(fsName, id)
        else if resourceType == "nas_server" then Lookup(nasName, id)
        else "";
      if name == "" then id else name
    }
  }

  function Lookup(m: map<string, string>, key: string): string
  {
    if key in m then m[key] else ""
  }

  // ---------------------------------------------------------------- linear search

  /** One statement "key has this value" found somewhere in the inventory. */
  datatype Entry = Entry(key: string, value: string)

  function LastOf(entries: seq<Entry>, key: string): Option<string>
  {
    if entries == [] then None
    else
      var n := |entries| - 1;
      if entries[n].key == key then Some(entries[n].value) else LastOf(entries[..n], key)
  }

  function FirstOf(entries: seq<Entry>, key: string): Option<string>
  {
    if entries == [] then None
    else if entries[0].key == key then Some(entries[0].value)
    else FirstOf(entries[1..], key)
  }

  function ApplianceNames(s: seq<Appliance>): (entries: seq<Entry>)
    ensures |entries| == |s| && forall i :: 0 <= i < |s| ==> entries[i] == Entry(s[i].id, s[i].name)
  {
    if s == [] then [] else ApplianceNames(s[..|s| - 1]) + [Entry(s[|s| - 1].id, s[|s| - 1].name)]
  }

  function ServiceTags(s: seq<Appliance>): (entries: seq<Entry>)
    ensures |entries| == |s| && forall i :: 0 <= i < |s| ==> entries[i] == Entry(s[i].id, s[i].serviceTag)
  {
    if s == [] then [] else ServiceTags(s[..|s| - 1]) + [Entry(s[|s| - 1].id, s[|s| - 1].serviceTag)]
  }

  function VolumeNames(s: seq<Volume>): (entries: seq<Entry>)
    ensures |entries| == |s| && forall i :: 0 <= i < |s| ==> entries[i] == Entry(s[i].id, s[i].name)
  {
    if s == [] then [] else VolumeNames(s[..|s| - 1]) + [Entry(s[|s| - 1].id, s[|s| - 1].name)]
  }

  function VolumeAppliances(s: seq<Volume>): (entries: seq<Entry>)
    ensures |entries| == |s| && forall i :: 0 <= i < |s| ==> entries[i] == Entry(s[i].id, s[i].applianceId)
  {
    if s == [] then [] else VolumeAppliances(s[..|s| - 1]) + [Entry(s[|s| - 1].id, s[|s| - 1].applianceId)]
  }

  function GroupNames(s: seq<VolumeGroup>): (entries: seq<Entry>)
    ensures |entries| == |s| && forall i :: 0 <= i < |s| ==> entries[i] == Entry(s[i].id, s[i].name)
  {
    if s == [] then [] else GroupNames(s[..|s| - 1]) + [Entry(s[|s| - 1].id, s[|s| - 1].name)]
  }

  function NasNames(s: seq<Nas>): (entries: seq<Entry>)
    ensures |entries| == |s| && forall i :: 0 <= i < |s| ==> entries[i] == Entry(s[i].id, s[i].name)
  {
    if s == [] then [] else NasNames(s[..|s| - 1]) + [Entry(s[|s| - 1].id, s[|s| - 1].name)]
  }

  function FsNames(s: seq<FileSystem>): (entries: seq<Entry>)
    ensures |entries| == |s| && forall i :: 0 <= i < |s| ==> entries[i] == Entry(s[i].id, s[i].name)
  {
    if s == [] then [] else FsNames(s[..|s| - 1]) + [Entry(s[|s| - 1].id, s[|s| - 1].name)]
  }

  function MemberEntries(members: seq<string>, groupId: string): (entries: seq<Entry>)
    ensures |entries| == |members|
    ensures forall i :: 0 <= i < |members| ==> entries[i] == Entry(members[i], groupId)
  {
    if members == [] then []
    else MemberEntries(members[..|members| - 1], groupId) + [Entry(members[|members| - 1], groupId)]
  }

  /** "Volume is in group", as told by the groups. */
  function GroupSide(s: seq<VolumeGroup>): seq<Entry>
  {
    if s == [] then [] else GroupSide(s[..|s| - 1]) + MemberEntries(s[|s| - 1].members, s[|s| - 1].id)
  }

  /** "Volume is in group", as told by one volume; references without an id are ignored. */
  function RefEntries(volId: string, refs: seq<GroupRef>): seq<Entry>
  {
    if refs == [] then []
    else
      var n := |refs| - 1;
      RefEntries(volId, refs[..n]) + if refs[n].id == "" then [] else [Entry(volId, refs[n].id)]
  }

  function VolumeSide(s: seq<Volume>): seq<Entry>
  {
    if s == [] then [] else VolumeSide(s[..|s| - 1]) + RefEntries(s[|s| - 1].id, s[|s| - 1].groups)
  }

  /** The group's name, as told by one reference; one without an id is ignored. */
  function RefName(r: GroupRef): seq<Entry>
  {
    if r.id == "" then [] else [Entry(r.id, r.name)]
  }

  /** Group names, as told by one volume. */
  function RefNames(refs: seq<GroupRef>): seq<Entry>
  {
    if refs == [] then []
    else
      var n := |refs| - 1;
      RefNames(refs[..n]) + RefName(refs[n])
  }

  function VolumeSideNames(s: seq<Volume>): seq<Entry>
  {
    if s == [] then [] else VolumeSideNames(s[..|s| - 1]) + RefNames(s[|s| - 1].groups)
  }

  /** The map answers every key as a linear search for its last entry would. */
  ghost predicate Indexes(m: map<string, string>, entries: seq<Entry>)
  {
    forall key :: (if key in m then Some(m[key]) else None) == LastOf(entries, key)
  }

  /** The groups' own names first (last one wins), then the first name a volume gives. */
  ghost predicate IndexesNames(m: map<string, string>, own: seq<Entry>, told: seq<Entry>)
  {
    forall key :: (if key in m then Some(m[key]) else None) ==
                  (if LastOf(own, key).Some? then LastOf(own, key) else FirstOf(told, key))
  }

  ghost predicate IsTopology(t: Topology, inv: Inventory)
  {
    && t.inv == inv
    && Indexes(t.applianceName, ApplianceNames(inv.appliances))
    && Indexes(t.applianceServiceTag, ServiceTags(inv.appliances))
    && Indexes(t.volumeName, VolumeNames(inv.volumes))
    && Indexes(t.volumeApplianceId, VolumeAppliances(inv.volumes))
    && Indexes(t.volumeVgId, GroupSide(inv.groups) + VolumeSide(inv.volumes))
    && IndexesNames(t.vgName, GroupNames(inv.groups), VolumeSideNames(inv.volumes))
    && Indexes(t.nasName, NasNames(inv.nas))
    && Indexes(t.fsName, FsNames(inv.fileSystems))
  }

  lemma IndexesSnoc(m: map<string, string>, entries: seq<Entry>, e: Entry)
    requires Indexes(m, entries)
    ensures Indexes(m[e.key := e.value], entries + [e])
  {
    assert (entries + [e])[..|entries|] == entries;
  }

  lemma {:induction false} FirstOfSnoc(entries: seq<Entry>, e: Entry, key: string)
    ensures FirstOf(entries + [e], key) ==
      if FirstOf(entries, key).Some? then FirstOf(entries, key) else if e.key == key then Some(e.value) else None
  {
    if entries != [] {
      assert (entries + [e])[1..] == entries[1..] + [e];
      FirstOfSnoc(entries[1..], e, key);
    }
  }

  /** A name a volume gives is kept only when the group has none yet. */
  lemma IndexesNamesSnoc(m: map<string, string>, own: seq<Entry>, told: seq<Entry>, e: Entry)
    requires IndexesNames(m, own, told)
    ensures IndexesNames(if e.key in m then m else m[e.key := e.value], own, told + [e])
  {
    forall key {
      FirstOfSnoc(told, e, key);
    }
  }

  method IndexAppliances(s: seq<Appliance>) returns (names: map<string, string>, tags: map<string, string>)
    ensures Indexes(names, ApplianceNames(s)) && Indexes(tags, ServiceTags(s))
  {
    names, tags := map[], map[];
    for i := 0 to |s|
      invariant Indexes(names, ApplianceNames(s[..i])) && Indexes(tags, ServiceTags(s[..i]))
    {
      assert s[..i + 1][..i] == s[..i];
      IndexesSnoc(names, ApplianceNames(s[..i]), Entry(s[i].id, s[i].name));
      IndexesSnoc(tags, ServiceTags(s[..i]), Entry(s[i].id, s[i].serviceTag));
      names, tags := names[s[i].id := s[i].name], tags[s[i].id := s[i].serviceTag];
    }
    assert s[..|s|] == s;
  }

  method IndexVolumes(s: seq<Volume>) returns (names: map<string, string>, appliances: map<string, string>)
    ensures Indexes(names, VolumeNames(s)) && Indexes(appliances, VolumeAppliances(s))
  {
    names, appliances := map[], map[];
    for i := 0 to |s|
      invariant Indexes(names, VolumeNames(s[..i])) && Indexes(appliances, VolumeAppliances(s[..i]))
    {
      assert s[..i + 1][..i] == s[..i];
      IndexesSnoc(names, VolumeNames(s[..i]), Entry(s[i].id, s[i].name));
      IndexesSnoc(appliances, VolumeAppliances(s[..i]), Entry(s[i].id, s[i].applianceId));
      names, appliances := names[s[i].id := s[i].name], appliances[s[i].id := s[i].applianceId];
    }
    assert s[..|s|] == s;
  }

  method IndexGroups(s: seq<VolumeGroup>) returns (names: map<string, string>, memberOf: map<string, string>)
    ensures Indexes(names, GroupNames(s)) && Indexes(memberOf, GroupSide(s))
  {
    names, memberOf := map[], map[];
    for i := 0 to |s|
      invariant Indexes(names, GroupNames(s[..i])) && Indexes(memberOf, GroupSide(s[..i]))
    {
      assert s[..i + 1][..i] == s[..i];
      IndexesSnoc(names, GroupNames(s[..i]), Entry(s[i].id, s[i].name));
      names := names[s[i].id := s[i].name];
      ghost var before := GroupSide(s[..i]);
      var members := s[i].members;
      assert before + MemberEntries(members[..0], s[i].id) == before;
      for k := 0 to |members|
        invariant Indexes(memberOf, before + MemberEntries(members[..k], s[i].id))
      {
        assert members[..k + 1][..k] == members[..k];
        ghost var e := Entry(members[k], s[i].id);
        IndexesSnoc(memberOf, before + MemberEntries(members[..k], s[i].id), e);
        assert before + MemberEntries(members[..k + 1], s[i].id) == before + MemberEntries(members[..k], s[i].id) + [e];
        memberOf := memberOf[members[k] := s[i].id];
      }
      assert members[..|members|] == members;
    }
    assert s[..|s|] == s;
  }

  /** The volume-side pass: it overrides memberships and only adds missing group names. */
  method IndexMemberships(s: seq<Volume>, names0: map<string, string>, memberOf0: map<string, string>,
                          ghost own: seq<Entry>, ghost side: seq<Entry>)
    returns (names: map<string, string>, memberOf: map<string, string>)
    requires Indexes(names0, own) && Indexes(memberOf0, side)
    ensures IndexesNames(names, own, VolumeSideNames(s)) && Indexes(memberOf, side + VolumeSide(s))
  {
    names, memberOf := names0, memberOf0;
    assert side + VolumeSide(s[..0]) == side;
    for i := 0 to |s|
      invariant IndexesNames(names, own, VolumeSideNames(s[..i])) && Indexes(memberOf, side + VolumeSide(s[..i]))
    {
      names, memberOf := IndexRefs(s[i].id, s[i].groups, names, memberOf,
                                   own, VolumeSideNames(s[..i]), side + VolumeSide(s[..i]));
      assert s[..i + 1][..i] == s[..i];
      assert side + VolumeSide(s[..i + 1]) == side + VolumeSide(s[..i]) + RefEntries(s[i].id, s[i].groups);
    }
    assert s[..|s|] == s;
  }

  method IndexRefs(volId: string, refs: seq<GroupRef>, names0: map<string, string>, memberOf0: map<string, string>,
                   ghost own: seq<Entry>, ghost told: seq<Entry>, ghost side: seq<Entry>)
    returns (names: map<string, string>, memberOf: map<string, string>)
    requires IndexesNames(names0, own, told) && Indexes(memberOf0, side)
    ensures IndexesNames(names, own, told + RefNames(refs)) && Indexes(memberOf, side + RefEntries(volId, refs))
  {
    names, memberOf := names0, memberOf0;
    assert told + RefNames(refs[..0]) == told && side + RefEntries(volId, refs[..0]) == side;
    for k := 0 to |refs|
      invariant IndexesNames(names, own, told + RefNames(refs[..k]))
      invariant Indexes(memberOf, side + RefEntries(volId, refs[..k]))
    {
      var g := refs[k];
      assert refs[..k + 1][..k] == refs[..k];
      if g.id != "" {
        IndexesSnoc(memberOf, side + RefEntries(volId, refs[..k]), Entry(volId, g.id));
        IndexesNamesSnoc(names, own, told + RefNames(refs[..k]), Entry(g.id, g.name));
        assert side + RefEntries(volId, refs[..k + 1]) == side + RefEntries(volId, refs[..k]) + [Entry(volId, g.id)];
        assert told + RefNames(refs[..k + 1]) == told + RefNames(refs[..k]) + [Entry(g.id, g.name)];
        memberOf := memberOf[volId := g.id];
        if g.id !in names {
          names := names[g.id := g.name];
        }
      } else {
        assert RefEntries(volId, refs[..k + 1]) == RefEntries(volId, refs[..k]);
        assert RefNames(refs[..k + 1]) == RefNames(refs[..k]);
      }
    }
    assert refs[..|refs|] == refs;
  }

  method IndexNas(s: seq<Nas>) returns (names: map<string, string>)
    ensures Indexes(names, NasNames(s))
  {
    names := map[];
    for i := 0 to |s|
      invariant Indexes(names, NasNames(s[..i]))
    {
      assert s[..i + 1][..i] == s[..i];
      IndexesSnoc(names, NasNames(s[..i]), Entry(s[i].id, s[i].name));
      names := names[s[i].id := s[i].name];
    }
    assert s[..|s|] == s;
  }

  method IndexFileSystems(s: seq<FileSystem>) returns (names: map<string, string>)
    ensures Indexes(names, FsNames(s))
  {
    names := map[];
    for i := 0 to |s|
      invariant Indexes(names, FsNames(s[..i]))
    {
      assert s[..i + 1][..i] == s[..i];
      IndexesSnoc(names, FsNames(s[..i]), Entry(s[i].id, s[i].name));
      names := names[s[i].id := s[i].name];
    }
    assert s[..|s|] == s;
  }

  method NewTopology(inv: Inventory) returns (t: Topology)
    ensures IsTopology(t, inv) && t.alerts == []
  {
    var applianceName, serviceTag := IndexAppliances(inv.appliances);
    var volumeName, volumeAppliance := IndexVolumes(inv.volumes);
    var vgName, memberOf := IndexGroups(inv.groups);
    vgName, memberOf := IndexMemberships(inv.volumes, vgName, memberOf, GroupNames(inv.groups), GroupSide(inv.groups));
    var nasName := IndexNas(inv.nas);
    var fsName := IndexFileSystems(inv.fileSystems);
    t := Topology(inv, [], applianceName, serviceTag, vgName, memberOf, volumeName, volumeAppliance, nasName, fsName);
  }

  // ---------------------------------------------------------------- no membership dangles

  lemma {:induction false} LastOfIsEntry(entries: seq<Entry>, key: string)
    requires LastOf(entries, key).Some?
    ensures Entry(key, LastOf(entries, key).value) in entries
  {
    var n := |entries| - 1;
    if entries[n].key == key {
      assert entries[n] == Entry(key, LastOf(entries, key).value);
    } else {
      LastOfIsEntry(entries[..n], key);
    }
  }

  lemma {:induction false} LastOfFinds(entries: seq<Entry>, e: Entry)
    requires e in entries
    ensures LastOf(entries, e.key).Some?
  {
    var n := |entries| - 1;
    if entries[n].key != e.key {
      LastOfFinds(entries[..n], e);
    }
  }

  lemma {:induction false} FirstOfFinds(entries: seq<Entry>, e: Entry)
    requires e in entries
    ensures FirstOf(entries, e.key).Some?
  {
    if entries[0].key != e.key {
      FirstOfFinds(entries[1..], e);
    }
  }

  lemma {:induction false} GroupSideNamed(s: seq<VolumeGroup>, e: Entry)
    requires e in GroupSide(s)
    ensures exists g :: g in GroupNames(s) && g.key == e.value
  {
    var n := |s| - 1;
    if e in GroupSide(s[..n]) {
      GroupSideNamed(s[..n], e);
      var g :| g in GroupNames(s[..n]) && g.key == e.value;
      assert g in GroupNames(s);
    } else {
      MemberEntriesValue(s[n].members, s[n].id, e);
      assert Entry(s[n].id, s[n].name) in GroupNames(s);
    }
  }

  lemma {:induction false} MemberEntriesValue(members: seq<string>, groupId: string, e: Entry)
    requires e in MemberEntries(members, groupId)
    ensures e.value == groupId
  {
    var n := |members| - 1;
    if e in MemberEntries(members[..n], groupId) {
      MemberEntriesValue(members[..n], groupId, e);
    }
  }

  lemma {:induction false} RefEntriesNamed(volId: string, refs: seq<GroupRef>, e: Entry)
    requires e in RefEntries(volId, refs)
    ensures exists g :: g in RefNames(refs) && g.key == e.value
  {
    var n := |refs| - 1;
    if e in RefEntries(volId, refs[..n]) {
      RefEntriesNamed(volId, refs[..n], e);
      var g :| g in RefNames(refs[..n]) && g.key == e.value;
      assert g in RefNames(refs);
    } else {
      assert Entry(refs[n].id, refs[n].name) in RefNames(refs);
    }
  }

  lemma {:induction false} VolumeSideNamed(s: seq<Volume>, e: Entry)
    requires e in VolumeSide(s)
    ensures exists g :: g in VolumeSideNames(s) && g.key == e.value
  {
    var n := |s| - 1;
    if e in VolumeSide(s[..n]) {
      VolumeSideNamed(s[..n], e);
      var g :| g in VolumeSideNames(s[..n]) && g.key == e.value;
      assert g in VolumeSideNames(s);
    } else {
      RefEntriesNamed(s[n].id, s[n].groups, e);
      var g :| g in RefNames(s[n].groups) && g.key == e.value;
      assert g in VolumeSideNames(s);
    }
  }

  /** Every group a volume is said to be in has a name entry. */
  lemma NoMembershipDangles(t: Topology, inv: Inventory, volId: string)
    requires IsTopology(t, inv) && volId in t.volumeVgId
    ensures t.volumeVgId[volId] in t.vgName
  {
    var side, told := GroupSide(inv.groups), VolumeSide(inv.volumes);
    var e := Entry(volId, t.volumeVgId[volId]);
    LastOfIsEntry(side + told, volId);
    assert e in side + told;
    if e in side {
      GroupSideNamed(inv.groups, e);
      var g :| g in GroupNames(inv.groups) && g.key == e.value;
      LastOfFinds(GroupNames(inv.groups), g);
    } else {
      VolumeSideNamed(inv.volumes, e);
      var g :| g in VolumeSideNames(inv.volumes) && g.key == e.value;
      FirstOfFinds(VolumeSideNames(inv.volumes), g);
    }
  }

  lemma {:induction false} LastOfConcat(a: seq<Entry>, b: seq<Entry>, key: string)
    ensures LastOf(a + b, key) == if LastOf(b, key).Some? then LastOf(b, key) else LastOf(a, key)
  {
    if b == [] {
      assert a + b == a;
    } else {
      var n := |b| - 1;
      assert (a + b)[..|a + b| - 1] == a + b[..n];
      LastOfConcat(a, b[..n], key);
    }
  }

  /** What a volume says about its own group wins over what the groups say, and either way the
      name returned beside a known group id is that group's. */
  lemma VolumeGroupOfIsSearch(t: Topology, inv: Inventory, volId: string)
    requires IsTopology(t, inv)
    ensures var said := LastOf(VolumeSide(inv.volumes), volId); var listed := LastOf(GroupSide(inv.groups), volId);
      var (id, name) := t.VolumeGroupOf(volId);
      && id == (if said.Some? then said.value else if listed.Some? then listed.value else "")
      && (said.Some? || listed.Some? ==> id in t.vgName && name == t.vgName[id])
  {
    LastOfConcat(GroupSide(inv.groups), VolumeSide(inv.volumes), volId);
    if volId in t.volumeVgId {
      NoMembershipDangles(t, inv, volId);
    }
  }

  /** The name the inventory lists for a resource of this type. */
  function ListedName(inv: Inventory, resourceType: string, id: string): Option<string>
  {
    if resourceType == "volume" then LastOf(VolumeNames(inv.volumes), id)
    else if resourceType == "volume_group" then
      if LastOf(GroupNames(inv.groups), id).Some? then LastOf(GroupNames(inv.groups), id)
      else FirstOf(VolumeSideNames(inv.volumes), id)
    else if resourceType == "file_system" then LastOf(FsNames(inv.fileSystems), id)
    else if resourceType == "nas_server" then LastOf(NasNames(inv.nas), id)
    else None
  }

  function OrEmpty(found: Option<string>): string
  {
    if found.Some? then found.value else ""
  }

  lemma LookupIsLast(m: map<string, string>, entries: seq<Entry>, key: string)
    requires Indexes(m, entries)
    ensures Lookup(m, key) == OrEmpty(LastOf(entries, key))
  {
  }

  lemma LookupIsNamed(m: map<string, string>, own: seq<Entry>, told: seq<Entry>, key: string)
    requires IndexesNames(m, own, told)
    ensures Lookup(m, key) == OrEmpty(if LastOf(own, key).Some? then LastOf(own, key) else FirstOf(told, key))
  {
  }

  /** A resource is shown under the name listed for its type, or under its id when that is missing or empty. */
  lemma ResourceNameIsSearch(t: Topology, inv: Inventory, resourceType: string, id: string)
    requires IsTopology(t, inv)
    ensures var listed := OrEmpty(ListedName(inv, resourceType, id));
      t.ResourceName(resourceType, id) == if listed != "" then listed else id
  {
    if resourceType == "volume" {
      LookupIsLast(t.volumeName, VolumeNames(inv.volumes), id);
    } else if resourceType == "volume_group" {
      LookupIsNamed(t.vgName, GroupNames(inv.groups), VolumeSideNames(inv.volumes), id);
    } else if resourceType == "file_system" {
      LookupIsLast(t.fsName, FsNames(inv.fileSystems), id);
    } else if resourceType == "nas_server" {
      LookupIsLast(t.nasName, NasNames(inv.nas), id);
    }
  }
}
