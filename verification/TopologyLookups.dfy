/** What the lookups answer, told by the entries of the inventory themselves: which entry decides when there are
    several, and what an entry that is missing means. */
module TopologyLookups {
  import opened Prelude
  import opened Topologies

  /** Entry i is the last one with this key. */
  predicate LastAt(entries: seq<Entry>, key: string, i: int)
  {
    0 <= i < |entries| && entries[i].key == key && forall j :: i < j < |entries| ==> entries[j].key != key
  }

  lemma {:induction false} LastOfIsLast(entries: seq<Entry>, key: string, i: nat)
    requires LastAt(entries, key, i)
    ensures LastOf(entries, key) == Some(entries[i].value)
  {
    var n := |entries| - 1;
    if i < n {
      LastOfIsLast(entries[..n], key, i);
    }
  }

  lemma {:induction false} LastOfNone(entries: seq<Entry>, key: string)
    requires forall i :: 0 <= i < |entries| ==> entries[i].key != key
    ensures LastOf(entries, key).None?
  {
    if entries != [] {
      LastOfNone(entries[..|entries| - 1], key);
    }
  }

  lemma IndexedLast(m: map<string, string>, entries: seq<Entry>, key: string, i: nat)
    requires Indexes(m, entries) && LastAt(entries, key, i)
    ensures key in m && m[key] == entries[i].value
  {
    LastOfIsLast(entries, key, i);
  }

  lemma NotIndexed(m: map<string, string>, entries: seq<Entry>, key: string)
    requires Indexes(m, entries) && forall i :: 0 <= i < |entries| ==> entries[i].key != key
    ensures key !in m
  {
    LastOfNone(entries, key);
  }

  predicate LastVolume(volumes: seq<Volume>, id: string, i: int)
  {
    0 <= i < |volumes| && volumes[i].id == id && forall j :: i < j < |volumes| ==> volumes[j].id != id
  }

  predicate LastAppliance(appliances: seq<Appliance>, id: string, i: int)
  {
    0 <= i < |appliances| && appliances[i].id == id && forall j :: i < j < |appliances| ==> appliances[j].id != id
  }

  predicate LastGroup(groups: seq<VolumeGroup>, id: string, i: int)
  {
    0 <= i < |groups| && groups[i].id == id && forall j :: i < j < |groups| ==> groups[j].id != id
  }

  /** A volume is told by its last entry in the inventory; one that is not listed is unknown. */
  lemma VolumeInfoIsListed(t: Topology, inv: Inventory, id: string)
    requires IsTopology(t, inv)
    ensures forall i :: LastVolume(inv.volumes, id, i) ==>
      t.VolumeInfo(id) == (inv.volumes[i].name, inv.volumes[i].applianceId, true)
    ensures (forall i :: 0 <= i < |inv.volumes| ==> inv.volumes[i].id != id) ==> t.VolumeInfo(id) == ("", "", false)
  {
    var names, appliances := VolumeNames(inv.volumes), VolumeAppliances(inv.volumes);
    forall i | LastVolume(inv.volumes, id, i)
      ensures t.VolumeInfo(id) == (inv.volumes[i].name, inv.volumes[i].applianceId, true)
    {
      assert LastAt(names, id, i) && LastAt(appliances, id, i);
      IndexedLast(t.volumeName, names, id, i);
      IndexedLast(t.volumeApplianceId, appliances, id, i);
    }
    if forall i :: 0 <= i < |inv.volumes| ==> inv.volumes[i].id != id {
      NotIndexed(t.volumeName, names, id);
      NotIndexed(t.volumeApplianceId, appliances, id);
    }
  }

  /** So is an appliance, with its name and its service tag. */
  lemma ApplianceIsListed(t: Topology, inv: Inventory, id: string)
    requires IsTopology(t, inv)
    ensures forall i :: LastAppliance(inv.appliances, id, i) ==>
      t.ApplianceName(id) == inv.appliances[i].name && t.ApplianceServiceTag(id) == inv.appliances[i].serviceTag
    ensures (forall i :: 0 <= i < |inv.appliances| ==> inv.appliances[i].id != id) ==>
      t.ApplianceName(id) == "" && t.ApplianceServiceTag(id) == ""
  {
    var names, tags := ApplianceNames(inv.appliances), ServiceTags(inv.appliances);
    forall i | LastAppliance(inv.appliances, id, i)
      ensures t.ApplianceName(id) == inv.appliances[i].name && t.ApplianceServiceTag(id) == inv.appliances[i].serviceTag
    {
      assert LastAt(names, id, i) && LastAt(tags, id, i);
      IndexedLast(t.applianceName, names, id, i);
      IndexedLast(t.applianceServiceTag, tags, id, i);
    }
    if forall i :: 0 <= i < |inv.appliances| ==> inv.appliances[i].id != id {
      NotIndexed(t.applianceName, names, id);
      NotIndexed(t.applianceServiceTag, tags, id);
    }
  }

  predicate LastNas(list: seq<Nas>, id: string, i: int)
  {
    0 <= i < |list| && list[i].id == id && forall j :: i < j < |list| ==> list[j].id != id
  }

  /** And a NAS server. */
  lemma NasIsListed(t: Topology, inv: Inventory, id: string)
    requires IsTopology(t, inv)
    ensures forall i :: LastNas(inv.nas, id, i) ==> t.NasName(id) == inv.nas[i].name
    ensures (forall i :: 0 <= i < |inv.nas| ==> inv.nas[i].id != id) ==> t.NasName(id) == ""
  {
    var names := NasNames(inv.nas);
    forall i | LastNas(inv.nas, id, i)
      ensures t.NasName(id) == inv.nas[i].name
    {
      assert LastAt(names, id, i);
      IndexedLast(t.nasName, names, id, i);
    }
    if forall i :: 0 <= i < |inv.nas| ==> inv.nas[i].id != id {
      NotIndexed(t.nasName, names, id);
    }
  }

  /** Reference k of volume i is the last one with a group id that a volume of this id makes. */
  predicate LastRef(volumes: seq<Volume>, id: string, i: int, k: int)
  {
    && 0 <= i < |volumes| && 0 <= k < |volumes[i].groups| && volumes[i].id == id && volumes[i].groups[k].id != ""
    && (forall l :: k < l < |volumes[i].groups| ==> volumes[i].groups[l].id == "")
    && forall j :: i < j < |volumes| && volumes[j].id == id ==> NoRef(volumes[j].groups)
  }

  predicate NoRef(refs: seq<GroupRef>)
  {
    forall k :: 0 <= k < |refs| ==> refs[k].id == ""
  }

  /** No volume of this id names a group. */
  predicate NoRefs(volumes: seq<Volume>, id: string)
  {
    forall i :: 0 <= i < |volumes| && volumes[i].id == id ==> NoRef(volumes[i].groups)
  }

  lemma {:induction false} NoRefEntries(volId: string, refs: seq<GroupRef>)
    requires NoRef(refs)
    ensures RefEntries(volId, refs) == []
  {
    if refs != [] {
      NoRefEntries(volId, refs[..|refs| - 1]);
    }
  }

  lemma {:induction false} ForeignRefEntries(volId: string, refs: seq<GroupRef>, id: string)
    requires id != volId
    ensures LastOf(RefEntries(volId, refs), id).None?
  {
    if refs != [] {
      ForeignRefEntries(volId, refs[..|refs| - 1], id);
      LastOfConcat(RefEntries(volId, refs[..|refs| - 1]),
                   if refs[|refs| - 1].id == "" then [] else [Entry(volId, refs[|refs| - 1].id)], id);
    }
  }

  lemma {:induction false} LastRefEntry(volId: string, refs: seq<GroupRef>, k: nat)
    requires k < |refs| && refs[k].id != "" && forall l :: k < l < |refs| ==> refs[l].id == ""
    ensures LastOf(RefEntries(volId, refs), volId) == Some(refs[k].id)
  {
    var n := |refs| - 1;
    if k < n {
      LastRefEntry(volId, refs[..n], k);
      assert RefEntries(volId, refs) == RefEntries(volId, refs[..n]);
    } else {
      LastOfConcat(RefEntries(volId, refs[..n]), [Entry(volId, refs[n].id)], volId);
    }
  }

  lemma {:induction false} NoVolumeSide(volumes: seq<Volume>, id: string)
    requires NoRefs(volumes, id)
    ensures LastOf(VolumeSide(volumes), id).None?
  {
    if volumes != [] {
      var n := |volumes| - 1;
      NoVolumeSide(volumes[..n], id);
      if volumes[n].id == id {
        NoRefEntries(id, volumes[n].groups);
      } else {
        ForeignRefEntries(volumes[n].id, volumes[n].groups, id);
      }
      LastOfConcat(VolumeSide(volumes[..n]), RefEntries(volumes[n].id, volumes[n].groups), id);
    }
  }

  lemma {:induction false} LastVolumeSide(volumes: seq<Volume>, id: string, i: nat, k: nat)
    requires LastRef(volumes, id, i, k)
    ensures LastOf(VolumeSide(volumes), id) == Some(volumes[i].groups[k].id)
  {
    var n := |volumes| - 1;
    if i < n {
      LastVolumeSide(volumes[..n], id, i, k);
      if volumes[n].id == id {
        NoRefEntries(id, volumes[n].groups);
      } else {
        ForeignRefEntries(volumes[n].id, volumes[n].groups, id);
      }
    } else {
      LastRefEntry(id, volumes[n].groups, k);
    }
    LastOfConcat(VolumeSide(volumes[..n]), RefEntries(volumes[n].id, volumes[n].groups), id);
  }

  /** Group i is the last one that lists this member. */
  predicate LastListing(groups: seq<VolumeGroup>, member: string, i: int)
  {
    && 0 <= i < |groups| && member in groups[i].members
    && forall j :: i < j < |groups| ==> member !in groups[j].members
  }

  predicate NotListed(groups: seq<VolumeGroup>, member: string)
  {
    forall i :: 0 <= i < |groups| ==> member !in groups[i].members
  }

  lemma MemberEntriesTell(members: seq<string>, groupId: string, member: string)
    ensures LastOf(MemberEntries(members, groupId), member) == if member in members then Some(groupId) else None
  {
    var entries := MemberEntries(members, groupId);
    if member in members {
      var k :| 0 <= k < |members| && members[k] == member;
      LastOfFinds(entries, entries[k]);
      LastOfIsEntry(entries, member);
      MemberEntriesValue(members, groupId, Entry(member, LastOf(entries, member).value));
    } else {
      LastOfNone(entries, member);
    }
  }

  lemma {:induction false} NoGroupSide(groups: seq<VolumeGroup>, member: string)
    requires NotListed(groups, member)
    ensures LastOf(GroupSide(groups), member).None?
  {
    if groups != [] {
      var n := |groups| - 1;
      NoGroupSide(groups[..n], member);
      MemberEntriesTell(groups[n].members, groups[n].id, member);
      LastOfConcat(GroupSide(groups[..n]), MemberEntries(groups[n].members, groups[n].id), member);
    }
  }

  lemma {:induction false} LastGroupSide(groups: seq<VolumeGroup>, member: string, i: nat)
    requires LastListing(groups, member, i)
    ensures LastOf(GroupSide(groups), member) == Some(groups[i].id)
  {
    var n := |groups| - 1;
    MemberEntriesTell(groups[n].members, groups[n].id, member);
    LastOfConcat(GroupSide(groups[..n]), MemberEntries(groups[n].members, groups[n].id), member);
    if i < n {
      LastGroupSide(groups[..n], member, i);
    }
  }

  /** A volume is in the group it names last; one that names none is in the last group that lists it; one that
      no group lists either is in none. */
  lemma MembershipIsListed(t: Topology, inv: Inventory, id: string)
    requires IsTopology(t, inv)
    ensures forall i, k :: LastRef(inv.volumes, id, i, k) ==> t.VolumeGroupOf(id).0 == inv.volumes[i].groups[k].id
    ensures NoRefs(inv.volumes, id) ==>
      (forall i :: LastListing(inv.groups, id, i) ==> t.VolumeGroupOf(id).0 == inv.groups[i].id) &&
      (NotListed(inv.groups, id) ==> t.VolumeGroupOf(id).0 == "")
  {
    VolumeGroupOfIsSearch(t, inv, id);
    forall i, k | LastRef(inv.volumes, id, i, k)
      ensures t.VolumeGroupOf(id).0 == inv.volumes[i].groups[k].id
    {
      LastVolumeSide(inv.volumes, id, i, k);
    }
    if NoRefs(inv.volumes, id) {
      NoVolumeSide(inv.volumes, id);
      forall i | LastListing(inv.groups, id, i)
        ensures t.VolumeGroupOf(id).0 == inv.groups[i].id
      {
        LastGroupSide(inv.groups, id, i);
      }
      if NotListed(inv.groups, id) {
        NoGroupSide(inv.groups, id);
      }
    }
  }

  lemma {:induction false} FirstOfFirst(entries: seq<Entry>, key: string, i: nat)
    requires i < |entries| && entries[i].key == key && forall j :: 0 <= j < i ==> entries[j].key != key
    ensures FirstOf(entries, key) == Some(entries[i].value)
  {
    if i > 0 {
      FirstOfFirst(entries[1..], key, i - 1);
    }
  }

  lemma {:induction false} FirstOfConcat(a: seq<Entry>, b: seq<Entry>, key: string)
    ensures FirstOf(a + b, key) == if FirstOf(a, key).Some? then FirstOf(a, key) else FirstOf(b, key)
  {
    if a == [] {
      assert a + b == b;
    } else {
      assert (a + b)[1..] == a[1..] + b;
      FirstOfConcat(a[1..], b, key);
    }
  }

  /** Reference k is the first one to this group. */
  predicate FirstTo(refs: seq<GroupRef>, id: string, k: int)
  {
    0 <= k < |refs| && refs[k].id == id && forall l :: 0 <= l < k ==> refs[l].id != id
  }

  predicate NoneTo(refs: seq<GroupRef>, id: string)
  {
    forall k :: 0 <= k < |refs| ==> refs[k].id != id
  }

  lemma {:induction false} NoRefNames(refs: seq<GroupRef>, id: string)
    requires id != "" && NoneTo(refs, id)
    ensures FirstOf(RefNames(refs), id).None?
  {
    if refs != [] {
      var n := |refs| - 1;
      NoRefNames(refs[..n], id);
      FirstOfConcat(RefNames(refs[..n]), RefName(refs[n]), id);
    }
  }

  lemma {:induction false} FirstRefName(refs: seq<GroupRef>, id: string, k: nat)
    requires id != "" && FirstTo(refs, id, k)
    ensures FirstOf(RefNames(refs), id) == Some(refs[k].name)
  {
    var n := |refs| - 1;
    FirstOfConcat(RefNames(refs[..n]), RefName(refs[n]), id);
    if k < n {
      FirstRefName(refs[..n], id, k);
    } else {
      NoRefNames(refs[..n], id);
    }
  }

  /** Volume i is the first one that names the group, and this is its first reference to it. */
  predicate FirstNaming(volumes: seq<Volume>, id: string, i: int, k: int)
  {
    && 0 <= i < |volumes| && FirstTo(volumes[i].groups, id, k)
    && forall j :: 0 <= j < i ==> NoneTo(volumes[j].groups, id)
  }

  lemma {:induction false} NoVolumeNames(volumes: seq<Volume>, id: string)
    requires id != "" && forall j :: 0 <= j < |volumes| ==> NoneTo(volumes[j].groups, id)
    ensures FirstOf(VolumeSideNames(volumes), id).None?
  {
    if volumes != [] {
      var n := |volumes| - 1;
      NoVolumeNames(volumes[..n], id);
      NoRefNames(volumes[n].groups, id);
      FirstOfConcat(VolumeSideNames(volumes[..n]), RefNames(volumes[n].groups), id);
    }
  }

  lemma {:induction false} FirstVolumeNames(volumes: seq<Volume>, id: string, i: nat, k: nat)
    requires id != "" && FirstNaming(volumes, id, i, k)
    ensures FirstOf(VolumeSideNames(volumes), id) == Some(volumes[i].groups[k].name)
  {
    var n := |volumes| - 1;
    FirstOfConcat(VolumeSideNames(volumes[..n]), RefNames(volumes[n].groups), id);
    if i < n {
      FirstVolumeNames(volumes[..n], id, i, k);
    } else {
      NoVolumeNames(volumes[..n], id);
      FirstRefName(volumes[n].groups, id, k);
    }
  }

  /** A group has the name of its last entry in the inventory; one that is not listed has the first name that a
      volume gives it. */
  lemma GroupNameIsListed(t: Topology, inv: Inventory, id: string)
    requires IsTopology(t, inv) && id != ""
    ensures forall i :: LastGroup(inv.groups, id, i) ==> Lookup(t.vgName, id) == inv.groups[i].name
    ensures (forall i :: 0 <= i < |inv.groups| ==> inv.groups[i].id != id) ==>
      forall i, k :: FirstNaming(inv.volumes, id, i, k) ==> Lookup(t.vgName, id) == inv.volumes[i].groups[k].name
  {
    var own := GroupNames(inv.groups);
    forall i | LastGroup(inv.groups, id, i)
      ensures Lookup(t.vgName, id) == inv.groups[i].name
    {
      assert LastAt(own, id, i);
      LastOfIsLast(own, id, i);
    }
    if forall i :: 0 <= i < |inv.groups| ==> inv.groups[i].id != id {
      LastOfNone(own, id);
      forall i, k | FirstNaming(inv.volumes, id, i, k)
        ensures Lookup(t.vgName, id) == inv.volumes[i].groups[k].name
      {
        FirstVolumeNames(inv.volumes, id, i, k);
      }
    }
  }
}
