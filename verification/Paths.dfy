/** The two whole export paths, BulkMetrics and PerEntityMetrics, and when they agree. */
module Paths {
  import opened Prelude
  import opened Metrics
  import opened Topologies
  import opened Blocks
  import opened PerEntity
  import opened Bulk
  import opened Parity

  // ---------------------------------------------------------------- the archive

  /** One tar entry: a directory, or a file whose CSV text may not parse. */
  datatype ArchiveEntry = Directory | File(baseName: string, records: Option<seq<seq<string>>>)

  /** The last file of that name. */
  function FileRows(entries: seq<ArchiveEntry>, name: string): seq<Row>
  {
    if entries == [] then []
    else
      var n := |entries| - 1;
      if entries[n].File? && entries[n].baseName == name && entries[n].records.Some?
      then RowsOf(entries[n].records.value)
      else FileRows(entries[..n], name)
  }

  /** Entry i is the last file of that name. */
  predicate LastFile(entries: seq<ArchiveEntry>, name: string, i: int)
  {
    && 0 <= i < |entries| && entries[i].File? && entries[i].baseName == name
    && forall j :: i < j < |entries| && entries[j].File? ==> entries[j].baseName != name
  }

  /** A later file of one name replaces an earlier one; without any the rows are none. */
  lemma {:induction false} FileRowsOfLast(entries: seq<ArchiveEntry>, name: string)
    requires AllParse(entries)
    ensures forall i :: LastFile(entries, name, i) ==> FileRows(entries, name) == RowsOf(entries[i].records.value)
    ensures (forall i :: !LastFile(entries, name, i)) ==> FileRows(entries, name) == []
  {
    if entries != [] {
      var n := |entries| - 1;
      FileRowsOfLast(entries[..n], name);
      if entries[n].File? && entries[n].baseName == name {
        assert LastFile(entries, name, n);
      } else {
        assert forall i :: LastFile(entries, name, i) <==> LastFile(entries[..n], name, i);
      }
    }
  }

  predicate AllParse(entries: seq<ArchiveEntry>)
  {
    forall i :: 0 <= i < |entries| && entries[i].File? ==> entries[i].records.Some?
  }

  function RowsIn(files: map<string, seq<Row>>, name: string): seq<Row>
  {
    if name in files then files[name] else []
  }

  method ParseBulkArchive(entries: seq<ArchiveEntry>) returns (r: Result<map<string, seq<Row>>, ()>)
    ensures r.Ok? <==> AllParse(entries)
    ensures r.Ok? ==> forall name :: RowsIn(r.value, name) == FileRows(entries, name)
  {
    var out: map<string, seq<Row>> := map[];
    for i := 0 to |entries|
      invariant AllParse(entries[..i])
      invariant forall name :: RowsIn(out, name) == FileRows(entries[..i], name)
    {
      assert entries[..i + 1][..i] == entries[..i];
      if entries[i].Directory? {
        continue;
      }
      if entries[i].records.None? {
        return Err(());
      }
      var rows := ParseCsv(entries[i].records.value);
      out := out[entries[i].baseName := rows];
    }
    assert entries[..|entries|] == entries;
    r := Ok(out);
  }

  const PERF_FILE := "performance_metrics_by_appliance.csv"
  const SPACE_FILE := "space_metrics_by_appliance.csv"
  const VOLUME_FILE := "performance_metrics_by_volume.csv"

  /** Fails exactly when the archive does; otherwise the three files in turn, then the common part. */
  method BulkMetrics(a: string, t: Topology, archive: Option<seq<ArchiveEntry>>, parse: Parser, common: seq<Sample>)
    returns (r: Result<seq<Sample>, ()>)
    ensures r.Ok? <==> archive.Some? && AllParse(archive.value)
    ensures r.Ok? ==> r.value == BulkSamples(a, t, archive.value, parse, common)
  {
    if archive.None? {
      return Err(());
    }
    var parsed := ParseBulkArchive(archive.value);
    if parsed.Err? {
      return Err(());
    }
    var samples := DeriveBulkAppliancePerf(a, t, RowsIn(parsed.value, PERF_FILE), parse);
    var space := DeriveBulkApplianceSpace(a, t, RowsIn(parsed.value, SPACE_FILE), parse);
    var volume := DeriveBulkVolumePerf(a, t, RowsIn(parsed.value, VOLUME_FILE), parse);
    r := Ok(samples + space + volume + common);
  }

  function BulkSamples(a: string, t: Topology, entries: seq<ArchiveEntry>, parse: Parser,
                       common: seq<Sample>): seq<Sample>
  {
    Render(APPLIANCE_NAMES, RowBlocks(FileRows(entries, PERF_FILE), BulkPerfFn(a, t, parse))) +
    Render(SPACE_NAMES, RowBlocks(FileRows(entries, SPACE_FILE), BulkSpaceFn(a, t, parse))) +
    Render(VOLUME_NAMES, RowBlocks(FileRows(entries, VOLUME_FILE), BulkVolumeFn(a, t, parse))) +
    common
  }

  // ---------------------------------------------------------------- one query per entity

  /** A failed query answers nothing. */
  function AnswerTo<V>(reply: Option<seq<V>>): seq<V>
  {
    if reply.Some? then reply.value else []
  }

  function Answered<V>(replies: seq<Option<seq<V>>>): (answers: seq<seq<V>>)
    ensures |answers| == |replies|
  {
    seq(|replies|, i requires 0 <= i < |replies| => AnswerTo(replies[i]))
  }

  /** What the per-entity queries answered, and the orders the maps were ranged over. */
  datatype Queries = Queries(
    perf: seq<Option<seq<AppliancePerf>>>, space: seq<Option<seq<ApplianceSpace>>>,
    volume: seq<Option<seq<VolumePerf>>>)

  datatype Orders = Orders(perf: seq<seq<string>>, space: seq<seq<string>>, volume: seq<seq<string>>)

  predicate OrdersOf(o: Orders, q: Queries)
  {
    && Orderings(o.perf, Answered(q.perf), AppliancePerfKey)
    && Orderings(o.space, Answered(q.space), ApplianceSpaceKey)
    && Orderings(o.volume, Answered(q.volume), VolumeKey)
  }

  function PerfSamples(a: string, t: Topology, replies: seq<Option<seq<AppliancePerf>>>,
                       orders: seq<seq<string>>): seq<Sample>
    requires Orderings(orders, Answered(replies), AppliancePerfKey)
  {
    Render(APPLIANCE_NAMES, BlocksAll(Answered(replies), orders, AppliancePerfKey, AppliancePerfBlockFn(a, t)))
  }

  function SpaceSamples(a: string, t: Topology, replies: seq<Option<seq<ApplianceSpace>>>,
                        orders: seq<seq<string>>): seq<Sample>
    requires Orderings(orders, Answered(replies), ApplianceSpaceKey)
  {
    Render(SPACE_NAMES, BlocksAll(Answered(replies), orders, ApplianceSpaceKey, ApplianceSpaceBlockFn(a, t)))
  }

  function VolumeSamples(a: string, t: Topology, replies: seq<Option<seq<VolumePerf>>>,
                         orders: seq<seq<string>>): seq<Sample>
    requires Orderings(orders, Answered(replies), VolumeKey)
  {
    Render(VOLUME_NAMES, BlocksAll(Answered(replies), orders, VolumeKey, VolumeBlockFn(a, t)))
  }

  lemma {:induction false} BlocksSnoc<V>(answers: seq<seq<V>>, orders: seq<seq<string>>, answer: seq<V>,
                                         order: seq<string>,
                                         key: V -> string, f: (string, V) -> Block, names: EightNames)
    requires Orderings(orders, answers, key) && Ordering(order, LatestById(answer, key))
    ensures Orderings(orders + [order], answers + [answer], key)
    ensures Render(names, BlocksAll(answers + [answer], orders + [order], key, f)) ==
      Render(names, BlocksAll(answers, orders, key, f)) + Render(names, BlocksOf(LatestById(answer, key), order, f))
  {
    assert (answers + [answer])[..|answers|] == answers && (orders + [order])[..|orders|] == orders;
    RenderConcat(names, BlocksAll(answers, orders, key, f), BlocksOf(LatestById(answer, key), order, f));
  }

  lemma AnsweredSnoc<V>(replies: seq<Option<seq<V>>>, i: nat)
    requires i < |replies|
    ensures Answered(replies[..i + 1]) == Answered(replies[..i]) + [AnswerTo(replies[i])]
  {
  }

  ghost predicate IsAppliancePart(samples: seq<Sample>, a: string, t: Topology, perf: seq<Option<seq<AppliancePerf>>>,
                                  space: seq<Option<seq<ApplianceSpace>>>)
  {
    exists po, so ::
      && Orderings(po, Answered(perf), AppliancePerfKey) && Orderings(so, Answered(space), ApplianceSpaceKey)
      && multiset(samples) == multiset(PerfSamples(a, t, perf, po)) + multiset(SpaceSamples(a, t, space, so))
  }

  ghost predicate IsVolumePart(samples: seq<Sample>, a: string, t: Topology, volume: seq<Option<seq<VolumePerf>>>)
  {
    exists orders :: Orderings(orders, Answered(volume), VolumeKey) && samples == VolumeSamples(a, t, volume, orders)
  }

  /** The appliance loop: performance and space of each appliance in turn. */
  method ApplianceMetrics(a: string, t: Topology, perf: seq<Option<seq<AppliancePerf>>>,
                          space: seq<Option<seq<ApplianceSpace>>>)
    returns (samples: seq<Sample>)
    requires |perf| == |space|
    ensures IsAppliancePart(samples, a, t, perf, space)
  {
    samples := [];
    ghost var po: seq<seq<string>>, so: seq<seq<string>> := [], [];
    for i := 0 to |perf|
      invariant Orderings(po, Answered(perf[..i]), AppliancePerfKey)
      invariant Orderings(so, Answered(space[..i]), ApplianceSpaceKey)
      invariant multiset(samples) ==
        multiset(PerfSamples(a, t, perf[..i], po)) + multiset(SpaceSamples(a, t, space[..i], so))
    {
      AnsweredSnoc(perf, i);
      AnsweredSnoc(space, i);
      var p := PerfReply(a, t, perf[i]);
      var s := SpaceReply(a, t, space[i]);
      ghost var pm := LatestById(AnswerTo(perf[i]), AppliancePerfKey);
      ghost var sm := LatestById(AnswerTo(space[i]), ApplianceSpaceKey);
      ghost var pi :| Ordering(pi, pm) && p == Render(APPLIANCE_NAMES, BlocksOf(pm, pi, AppliancePerfBlockFn(a, t)));
      ghost var si :| Ordering(si, sm) && s == Render(SPACE_NAMES, BlocksOf(sm, si, ApplianceSpaceBlockFn(a, t)));
      BlocksSnoc(Answered(perf[..i]), po, AnswerTo(perf[i]), pi, AppliancePerfKey, AppliancePerfBlockFn(a, t),
                 APPLIANCE_NAMES);
      BlocksSnoc(Answered(space[..i]), so, AnswerTo(space[i]), si, ApplianceSpaceKey, ApplianceSpaceBlockFn(a, t),
                 SPACE_NAMES);
      samples, po, so := samples + p + s, po + [pi], so + [si];
    }
    assert perf[..|perf|] == perf && space[..|space|] == space;
  }

  method PerfReply(a: string, t: Topology, reply: Option<seq<AppliancePerf>>) returns (out: seq<Sample>)
    ensures DerivedFrom(out, APPLIANCE_NAMES, LatestById(AnswerTo(reply), AppliancePerfKey), AppliancePerfBlockFn(a, t))
  {
    if reply.None? {
      assert Ordering([], LatestById(AnswerTo(reply), AppliancePerfKey));
      return [];
    }
    out := DeriveAppliancePerf(a, t, reply.value);
  }

  method SpaceReply(a: string, t: Topology, reply: Option<seq<ApplianceSpace>>) returns (out: seq<Sample>)
    ensures DerivedFrom(out, SPACE_NAMES, LatestById(AnswerTo(reply), ApplianceSpaceKey), ApplianceSpaceBlockFn(a, t))
  {
    if reply.None? {
      assert Ordering([], LatestById(AnswerTo(reply), ApplianceSpaceKey));
      return [];
    }
    out := DeriveApplianceSpace(a, t, reply.value);
  }

  method VolumeReply(a: string, t: Topology, reply: Option<seq<VolumePerf>>) returns (out: seq<Sample>)
    ensures DerivedFrom(out, VOLUME_NAMES, LatestById(AnswerTo(reply), VolumeKey), VolumeBlockFn(a, t))
  {
    if reply.None? {
      assert Ordering([], LatestById(AnswerTo(reply), VolumeKey));
      return [];
    }
    out := DeriveVolumePerf(a, t, reply.value);
  }

  /** The volume loop. */
  method VolumeMetrics(a: string, t: Topology, volume: seq<Option<seq<VolumePerf>>>) returns (samples: seq<Sample>)
    ensures IsVolumePart(samples, a, t, volume)
  {
    samples := [];
    ghost var orders: seq<seq<string>> := [];
    for i := 0 to |volume|
      invariant Orderings(orders, Answered(volume[..i]), VolumeKey)
      invariant samples == VolumeSamples(a, t, volume[..i], orders)
    {
      AnsweredSnoc(volume, i);
      var out := VolumeReply(a, t, volume[i]);
      ghost var m := LatestById(AnswerTo(volume[i]), VolumeKey);
      ghost var order :| Ordering(order, m) && out == Render(VOLUME_NAMES, BlocksOf(m, order, VolumeBlockFn(a, t)));
      BlocksSnoc(Answered(volume[..i]), orders, AnswerTo(volume[i]), order, VolumeKey, VolumeBlockFn(a, t),
                 VOLUME_NAMES);
      samples, orders := samples + out, orders + [order];
    }
    assert volume[..|volume|] == volume;
  }

  /** The samples of the three families and the common part, equally often, in some order. */
  ghost predicate IsPerEntity(samples: seq<Sample>, a: string, t: Topology, q: Queries, common: seq<Sample>)
  {
    exists o :: OrdersOf(o, q) && multiset(samples) == multiset(PerEntitySamples(a, t, q, o, common))
  }

  method PerEntityMetrics(a: string, t: Topology, q: Queries, common: seq<Sample>) returns (samples: seq<Sample>)
    requires |q.perf| == |q.space| == |t.inv.appliances| && |q.volume| == |t.inv.volumes|
    ensures IsPerEntity(samples, a, t, q, common)
  {
    var appliances := ApplianceMetrics(a, t, q.perf, q.space);
    var volumes := VolumeMetrics(a, t, q.volume);
    samples := appliances + volumes + common;
    ghost var po, so :|
      && Orderings(po, Answered(q.perf), AppliancePerfKey) && Orderings(so, Answered(q.space), ApplianceSpaceKey)
      && multiset(appliances) == multiset(PerfSamples(a, t, q.perf, po)) + multiset(SpaceSamples(a, t, q.space, so));
    ghost var vo :| Orderings(vo, Answered(q.volume), VolumeKey) && volumes == VolumeSamples(a, t, q.volume, vo);
    assert OrdersOf(Orders(po, so, vo), q);
  }

  /** The same samples, family by family. */
  function PerEntitySamples(a: string, t: Topology, q: Queries, o: Orders, common: seq<Sample>): seq<Sample>
    requires OrdersOf(o, q)
  {
    PerfSamples(a, t, q.perf, o.perf) + SpaceSamples(a, t, q.space, o.space) +
    VolumeSamples(a, t, q.volume, o.volume) + common
  }

  // ---------------------------------------------------------------- parity of the whole paths

  predicate Under(samples: seq<Sample>, names: EightNames)
  {
    forall s :: s in samples ==> names.Has(s.name)
  }

  lemma RenderUnder(names: EightNames, blocks: seq<Block>)
    ensures Under(Render(names, blocks), names)
  {
    var samples := Render(names, blocks);
    forall q | 0 <= q < |samples|
      ensures names.Has(samples[q].name)
    {
      assert samples[q].name == names.At(q % 8);
    }
  }

  predicate Apart(x: EightNames, y: EightNames)
  {
    forall i, j :: 0 <= i < 8 && 0 <= j < 8 ==> x.At(i) != y.At(j)
  }

  /** Names of different lengths are different; the two of equal length differ in their first letter. */
  lemma ApplianceNamesApart()
    ensures Apart(APPLIANCE_NAMES, SPACE_NAMES)
  {
    assert APPLIANCE_NAMES.n5[21] == 'r' && SPACE_NAMES.n2[21] == 'l';
  }

  lemma VolumeNamesApart()
    ensures Apart(APPLIANCE_NAMES, VOLUME_NAMES) && Apart(SPACE_NAMES, VOLUME_NAMES)
  {
    assert forall i :: 0 <= i < 8 ==> VOLUME_NAMES.At(i)[11] == 'v';
    assert forall i :: 0 <= i < 8 ==> APPLIANCE_NAMES.At(i)[11] == 'a' && SPACE_NAMES.At(i)[11] == 'a';
  }

  /** Samples of three families and a shared rest agree as a whole if and only if they agree family by family. */
  lemma FamilyByFamily(x1: seq<Sample>, x2: seq<Sample>, x3: seq<Sample>, y1: seq<Sample>, y2: seq<Sample>,
                       y3: seq<Sample>, rest: seq<Sample>)
    requires Under(x1, APPLIANCE_NAMES) && Under(x2, SPACE_NAMES) && Under(x3, VOLUME_NAMES)
    requires Under(y1, APPLIANCE_NAMES) && Under(y2, SPACE_NAMES) && Under(y3, VOLUME_NAMES)
    ensures multiset(x1 + x2 + x3 + rest) == multiset(y1 + y2 + y3 + rest)
      <==> multiset(x1) == multiset(y1) && multiset(x2) == multiset(y2) && multiset(x3) == multiset(y3)
  {
    if multiset(x1 + x2 + x3 + rest) == multiset(y1 + y2 + y3 + rest) {
      ApplianceNamesApart();
      VolumeNamesApart();
      forall s: Sample
        ensures multiset(x1)[s] == multiset(y1)[s] && multiset(x2)[s] == multiset(y2)[s]
        ensures multiset(x3)[s] == multiset(y3)[s]
      {
        CountAll(x1, x2, x3, rest, s);
        CountAll(y1, y2, y3, rest, s);
        OneFamily(x1, x2, x3, s);
        OneFamily(y1, y2, y3, s);
      }
    }
  }

  /** A sample occurs in the list of one family at most. */
  lemma OneFamily(x1: seq<Sample>, x2: seq<Sample>, x3: seq<Sample>, s: Sample)
    requires Under(x1, APPLIANCE_NAMES) && Under(x2, SPACE_NAMES) && Under(x3, VOLUME_NAMES)
    requires Apart(APPLIANCE_NAMES, SPACE_NAMES)
    requires Apart(APPLIANCE_NAMES, VOLUME_NAMES) && Apart(SPACE_NAMES, VOLUME_NAMES)
    ensures !APPLIANCE_NAMES.Has(s.name) ==> multiset(x1)[s] == 0
    ensures !SPACE_NAMES.Has(s.name) ==> multiset(x2)[s] == 0
    ensures !VOLUME_NAMES.Has(s.name) ==> multiset(x3)[s] == 0
    ensures !(APPLIANCE_NAMES.Has(s.name) && SPACE_NAMES.Has(s.name))
    ensures !(APPLIANCE_NAMES.Has(s.name) && VOLUME_NAMES.Has(s.name))
    ensures !(SPACE_NAMES.Has(s.name) && VOLUME_NAMES.Has(s.name))
  {
    assert s in multiset(x1) <==> s in x1;
    assert s in multiset(x2) <==> s in x2;
    assert s in multiset(x3) <==> s in x3;
  }

  lemma CountAll(x1: seq<Sample>, x2: seq<Sample>, x3: seq<Sample>, rest: seq<Sample>, s: Sample)
    ensures multiset(x1 + x2 + x3 + rest)[s] == multiset(x1)[s] + multiset(x2)[s] + multiset(x3)[s] + multiset(rest)[s]
  {
  }

  /** No entity is answered about in the reply to a query about another one. */
  predicate OwnReplies(q: Queries)
  {
    && OwnIds(Answered(q.perf), AppliancePerfKey)
    && OwnIds(Answered(q.space), ApplianceSpaceKey)
    && OwnIds(Answered(q.volume), VolumeKey)
  }

  /** That is so when the inventory lists each entity once and each reply is about the entity asked for. */
  lemma AskedEntitiesOnly<V>(answers: seq<seq<V>>, key: V -> string, ids: seq<string>)
    requires NoDup(ids) && |ids| == |answers|
    requires forall i, k :: 0 <= i < |answers| && 0 <= k < |answers[i]| ==> key(answers[i][k]) == ids[i]
    ensures OwnIds(answers, key)
  {
    forall i, j, id | 0 <= i < j < |answers| && id in LatestById(answers[i], key)
      ensures id !in LatestById(answers[j], key)
    {
      LatestIsLast(answers[i], key, id);
      LatestIsLast(answers[j], key, id);
    }
  }

  /** Each file holds the newest response of each answered entity, once, and no other row. */
  ghost predicate FilesMatch(t: Topology, entries: seq<ArchiveEntry>, q: Queries, parse: Parser)
  {
    && RowsMatch(FileRows(entries, PERF_FILE), "appliance_id",
                 LatestById(Flatten(Answered(q.perf)), AppliancePerfKey), PerfAgrees(parse))
    && RowsMatch(FileRows(entries, SPACE_FILE), "appliance_id",
                 LatestById(Flatten(Answered(q.space)), ApplianceSpaceKey), SpaceAgrees(parse))
    && RowsMatch(FileRows(entries, VOLUME_FILE), "volume_id",
                 LatestById(Flatten(Answered(q.volume)), VolumeKey), VolumeAgrees(t, parse))
  }

  lemma OrderedPathsAgreeIff(a: string, t: Topology, entries: seq<ArchiveEntry>, q: Queries, o: Orders,
                             parse: Parser, common: seq<Sample>)
    requires OrdersOf(o, q) && OwnReplies(q)
    ensures multiset(PerEntitySamples(a, t, q, o, common)) == multiset(BulkSamples(a, t, entries, parse, common))
      <==> FilesMatch(t, entries, q, parse)
  {
    OneByOneIsAtOnce(Answered(q.perf), o.perf, AppliancePerfKey, AppliancePerfBlockFn(a, t));
    OneByOneIsAtOnce(Answered(q.space), o.space, ApplianceSpaceKey, ApplianceSpaceBlockFn(a, t));
    OneByOneIsAtOnce(Answered(q.volume), o.volume, VolumeKey, VolumeBlockFn(a, t));
    var perfRows, spaceRows := FileRows(entries, PERF_FILE), FileRows(entries, SPACE_FILE);
    var volumeRows := FileRows(entries, VOLUME_FILE);
    PerfParityIff(a, t, LatestById(Flatten(Answered(q.perf)), AppliancePerfKey), Flatten(o.perf), perfRows, parse);
    SpaceParityIff(a, t, LatestById(Flatten(Answered(q.space)), ApplianceSpaceKey), Flatten(o.space), spaceRows, parse);
    VolumeParityIff(a, t, LatestById(Flatten(Answered(q.volume)), VolumeKey), Flatten(o.volume), volumeRows, parse);
    RenderUnder(APPLIANCE_NAMES, BlocksAll(Answered(q.perf), o.perf, AppliancePerfKey, AppliancePerfBlockFn(a, t)));
    RenderUnder(SPACE_NAMES, BlocksAll(Answered(q.space), o.space, ApplianceSpaceKey, ApplianceSpaceBlockFn(a, t)));
    RenderUnder(VOLUME_NAMES, BlocksAll(Answered(q.volume), o.volume, VolumeKey, VolumeBlockFn(a, t)));
    RenderUnder(APPLIANCE_NAMES, RowBlocks(perfRows, BulkPerfFn(a, t, parse)));
    RenderUnder(SPACE_NAMES, RowBlocks(spaceRows, BulkSpaceFn(a, t, parse)));
    RenderUnder(VOLUME_NAMES, RowBlocks(volumeRows, BulkVolumeFn(a, t, parse)));
    var p := PerEntityParts(a, t, q, o);
    FamilyByFamily(p.0, p.1, p.2,
               Render(APPLIANCE_NAMES, RowBlocks(perfRows, BulkPerfFn(a, t, parse))),
               Render(SPACE_NAMES, RowBlocks(spaceRows, BulkSpaceFn(a, t, parse))),
               Render(VOLUME_NAMES, RowBlocks(volumeRows, BulkVolumeFn(a, t, parse))), common);
  }

  /** Metric parity: whatever the per-entity path yields and whatever the bulk path yields, they are the
      same samples, equally often, if and only if the files match the replies. */
  lemma PathsAgreeIff(a: string, t: Topology, entries: seq<ArchiveEntry>, q: Queries, parse: Parser,
                      common: seq<Sample>,
                      samples: seq<Sample>)
    requires IsPerEntity(samples, a, t, q, common) && OwnReplies(q)
    ensures multiset(samples) == multiset(BulkSamples(a, t, entries, parse, common))
      <==> FilesMatch(t, entries, q, parse)
  {
    var o :| OrdersOf(o, q) && multiset(samples) == multiset(PerEntitySamples(a, t, q, o, common));
    OrderedPathsAgreeIff(a, t, entries, q, o, parse, common);
  }

  // ---------------------------------------------------------------- schemas of both paths

  predicate Labelled(blocks: seq<Block>, f: Family, a: string)
  {
    forall i :: 0 <= i < |blocks| ==> Schema(blocks[i].labels, f, a)
  }

  ghost predicate LabelsAs<V(!new)>(f: (string, V) -> Block, fam: Family, a: string)
  {
    forall id, r :: Schema(f(id, r).labels, fam, a)
  }

  lemma {:induction false} BlocksAllLabelled<V(!new)>(answers: seq<seq<V>>, orders: seq<seq<string>>, key: V -> string,
                                                      f: (string, V) -> Block, fam: Family, a: string)
    requires Orderings(orders, answers, key) && LabelsAs(f, fam, a)
    ensures Labelled(BlocksAll(answers, orders, key, f), fam, a)
  {
    if answers != [] {
      var n := |answers| - 1;
      BlocksAllLabelled(answers[..n], orders[..n], key, f, fam, a);
      var m := LatestById(answers[n], key);
      forall i | 0 <= i < |orders[n]|
        ensures Schema(BlocksOf(m, orders[n], f)[i].labels, fam, a)
      {
        assert orders[n][i] in Elems(orders[n]);
      }
    }
  }

  lemma OrderedPartsConform(a: string, t: Topology, q: Queries, o: Orders, common: seq<Sample>)
    requires OrdersOf(o, q) && Good(common, a)
    ensures Good(PerEntitySamples(a, t, q, o, common), a)
  {
    VolumeFamily();
    ApplianceFamily();
    SpaceFamily();
    var p := BlocksAll(Answered(q.perf), o.perf, AppliancePerfKey, AppliancePerfBlockFn(a, t));
    var s := BlocksAll(Answered(q.space), o.space, ApplianceSpaceKey, ApplianceSpaceBlockFn(a, t));
    var v := BlocksAll(Answered(q.volume), o.volume, VolumeKey, VolumeBlockFn(a, t));
    BlocksAllLabelled(Answered(q.perf), o.perf, AppliancePerfKey, AppliancePerfBlockFn(a, t), Family.Appliance, a);
    BlocksAllLabelled(Answered(q.space), o.space, ApplianceSpaceKey, ApplianceSpaceBlockFn(a, t), Family.Appliance, a);
    BlocksAllLabelled(Answered(q.volume), o.volume, VolumeKey, VolumeBlockFn(a, t), Family.Volume, a);
    RenderConforms(APPLIANCE_NAMES, p, Family.Appliance, a);
    RenderConforms(SPACE_NAMES, s, Family.Appliance, a);
    RenderConforms(VOLUME_NAMES, v, Family.Volume, a);
    GoodConcat(PerfSamples(a, t, q.perf, o.perf), SpaceSamples(a, t, q.space, o.space), a);
    GoodConcat(PerfSamples(a, t, q.perf, o.perf) + SpaceSamples(a, t, q.space, o.space),
               VolumeSamples(a, t, q.volume, o.volume), a);
  }

  lemma GoodBag(x: seq<Sample>, y: seq<Sample>, a: string)
    requires Good(y, a) && multiset(x) == multiset(y)
    ensures Good(x, a)
  {
    forall i | 0 <= i < |x|
      ensures Conforms(x[i]) && x[i].labels != [] && x[i].labels[0] == Label("array", a)
    {
      assert x[i] in multiset(x);
      assert x[i] in y;
    }
  }

  /** Every sample of the per-entity path carries its family's labels and the array's name. */
  lemma PerEntityConforms(a: string, t: Topology, q: Queries, common: seq<Sample>, samples: seq<Sample>)
    requires IsPerEntity(samples, a, t, q, common) && Good(common, a)
    ensures Good(samples, a)
  {
    var o :| OrdersOf(o, q) && multiset(samples) == multiset(PerEntitySamples(a, t, q, o, common));
    OrderedPartsConform(a, t, q, o, common);
    GoodBag(samples, PerEntitySamples(a, t, q, o, common), a);
  }

  /** Every sample of the bulk path carries the very same labels. */
  lemma BulkConforms(a: string, t: Topology, entries: seq<ArchiveEntry>, parse: Parser, common: seq<Sample>)
    requires Good(common, a)
    ensures Good(BulkSamples(a, t, entries, parse, common), a)
  {
    VolumeFamily();
    ApplianceFamily();
    SpaceFamily();
    RenderConforms(APPLIANCE_NAMES, RowBlocks(FileRows(entries, PERF_FILE), BulkPerfFn(a, t, parse)),
                   Family.Appliance, a);
    RenderConforms(SPACE_NAMES, RowBlocks(FileRows(entries, SPACE_FILE), BulkSpaceFn(a, t, parse)), Family.Appliance,
                   a);
    RenderConforms(VOLUME_NAMES, RowBlocks(FileRows(entries, VOLUME_FILE), BulkVolumeFn(a, t, parse)), Family.Volume,
                   a);
    var b := BulkParts(a, t, entries, parse);
    GoodConcat(b.0, b.1, a);
    GoodConcat(b.0 + b.1, b.2, a);
    GoodConcat(b.0 + b.1 + b.2, common, a);
  }

  /** The metric names with their label keys that occur among the samples. */
  function Schemas(samples: seq<Sample>): set<(string, seq<string>)>
  {
    set i | 0 <= i < |samples| :: (samples[i].name, LabelNames(samples[i].labels))
  }

  lemma RenderSchemas(names: EightNames, blocks: seq<Block>, f: Family, a: string)
    requires blocks != [] && Labelled(blocks, f, a)
    ensures Schemas(Render(names, blocks)) == set k | 0 <= k < 8 :: (names.At(k), Keys(f))
  {
    var samples := Render(names, blocks);
    forall k: nat | k < 8
      ensures (names.At(k), Keys(f)) in Schemas(samples)
    {
      RenderAt(names, blocks, 0, k);
      assert Schema(blocks[0].labels, f, a);
      assert (samples[k].name, LabelNames(samples[k].labels)) == (names.At(k), Keys(f));
    }
    forall q: nat | q < |samples|
      ensures samples[q].name == names.At(q % 8) && LabelNames(samples[q].labels) == Keys(f)
    {
      assert Schema(blocks[q / 8].labels, f, a);
    }
  }

  /** The three families the paths derive from different inputs, family by family. */
  function PerEntityParts(a: string, t: Topology, q: Queries, o: Orders): (seq<Sample>, seq<Sample>, seq<Sample>)
    requires OrdersOf(o, q)
  {
    (PerfSamples(a, t, q.perf, o.perf), SpaceSamples(a, t, q.space, o.space), VolumeSamples(a, t, q.volume, o.volume))
  }

  function BulkParts(a: string, t: Topology, entries: seq<ArchiveEntry>, parse: Parser): (seq<Sample>, seq<Sample>,
                     seq<Sample>)
  {
    (Render(APPLIANCE_NAMES, RowBlocks(FileRows(entries, PERF_FILE), BulkPerfFn(a, t, parse))),
     Render(SPACE_NAMES, RowBlocks(FileRows(entries, SPACE_FILE), BulkSpaceFn(a, t, parse))),
     Render(VOLUME_NAMES, RowBlocks(FileRows(entries, VOLUME_FILE), BulkVolumeFn(a, t, parse))))
  }

  /** One of them is silent, or both use the same names with the same label keys. */
  predicate SameSchemas(x: seq<Sample>, y: seq<Sample>)
  {
    x == [] || y == [] || Schemas(x) == Schemas(y)
  }

  lemma RenderedAlike(names: EightNames, x: seq<Block>, y: seq<Block>, f: Family, a: string)
    requires Labelled(x, f, a) && Labelled(y, f, a)
    ensures SameSchemas(Render(names, x), Render(names, y))
  {
    if x != [] && y != [] {
      RenderSchemas(names, x, f, a);
      RenderSchemas(names, y, f, a);
    }
  }

  /** Names and label keys agree whatever the rows and the replies hold. */
  lemma SchemasAlwaysAgree(a: string, t: Topology, entries: seq<ArchiveEntry>, q: Queries, o: Orders, parse: Parser)
    requires OrdersOf(o, q)
    ensures var p, b := PerEntityParts(a, t, q, o), BulkParts(a, t, entries, parse);
      SameSchemas(p.0, b.0) && SameSchemas(p.1, b.1) && SameSchemas(p.2, b.2)
  {
    var p := BlocksAll(Answered(q.perf), o.perf, AppliancePerfKey, AppliancePerfBlockFn(a, t));
    var s := BlocksAll(Answered(q.space), o.space, ApplianceSpaceKey, ApplianceSpaceBlockFn(a, t));
    var v := BlocksAll(Answered(q.volume), o.volume, VolumeKey, VolumeBlockFn(a, t));
    BlocksAllLabelled(Answered(q.perf), o.perf, AppliancePerfKey, AppliancePerfBlockFn(a, t), Family.Appliance, a);
    BlocksAllLabelled(Answered(q.space), o.space, ApplianceSpaceKey, ApplianceSpaceBlockFn(a, t), Family.Appliance, a);
    BlocksAllLabelled(Answered(q.volume), o.volume, VolumeKey, VolumeBlockFn(a, t), Family.Volume, a);
    RenderedAlike(APPLIANCE_NAMES, p, RowBlocks(FileRows(entries, PERF_FILE), BulkPerfFn(a, t, parse)),
                  Family.Appliance, a);
    RenderedAlike(SPACE_NAMES, s, RowBlocks(FileRows(entries, SPACE_FILE), BulkSpaceFn(a, t, parse)),
                  Family.Appliance, a);
    RenderedAlike(VOLUME_NAMES, v, RowBlocks(FileRows(entries, VOLUME_FILE), BulkVolumeFn(a, t, parse)),
                  Family.Volume, a);
  }
}
