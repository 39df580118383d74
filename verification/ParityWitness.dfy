/** Smallest inputs for which the two export paths differ: a volume row that the archive holds twice, and a row
    that names an appliance for a volume of which the inventory lists none. */
module ParityWitness {
  import opened Prelude
  import opened Metrics
  import opened Topologies
  import opened PerEntity
  import opened Bulk
  import opened Parity
  import opened Paths

  /** An array with one volume, listed without an appliance, and nothing else. */
  function OneVolume(): Inventory
  {
    Inventory("c", [], [Topologies.Volume("v", "n", "", [])], [], [], [], [], [])
  }

  function Known(): Topology
  {
    Topology(OneVolume(), [], map[], map[], map[], map[], map["v" := "n"], map["v" := ""], map[], map[])
  }

  /** The reply about volume v, all zero. */
  function Zero(): VolumePerf
  {
    VolumePerf("v", 0.0, 0.0, 0.0, 0.0, 0.0, 0.0, 0.0, 0.0)
  }

  /** One query for each appliance, of which there is none, and one for the volume. */
  function OneAnswer(): Queries
  {
    Queries([], [], [Some([Zero()])])
  }

  /** The indices are those of the inventory, and there is one reply per entity of it. */
  lemma InputIsReal()
    ensures IsTopology(Known(), OneVolume())
    ensures var q := OneAnswer();
      |q.perf| == |q.space| == |OneVolume().appliances| && |q.volume| == |OneVolume().volumes|
  {
    var inv := OneVolume();
    assert inv.volumes[..0] == [];
    assert VolumeNames(inv.volumes) == [] + [Entry("v", "n")] == [Entry("v", "n")];
    assert VolumeAppliances(inv.volumes) == [] + [Entry("v", "")] == [Entry("v", "")];
    assert VolumeSide(inv.volumes) == [] && VolumeSideNames(inv.volumes) == [];
    assert [Entry("v", "n")][..0] == [] && [Entry("v", "")][..0] == [];
  }

  function OneOrder(): Orders
  {
    Orders([], [], [["v"]])
  }

  lemma OneOrderOf()
    ensures OrdersOf(OneOrder(), OneAnswer())
  {
    var answers := Answered(OneAnswer().volume);
    assert answers[0] == [Zero()] && [Zero()][..0] == [];
    assert LatestById([], VolumeKey) == map[] && LatestById(answers[0], VolumeKey) == map["v" := Zero()];
    assert Elems(["v"]) == map["v" := Zero()].Keys;
  }

  /** The per-entity path does yield samples for it. */
  lemma AnswersYield() returns (samples: seq<Sample>)
    ensures IsPerEntity(samples, "x", Known(), OneAnswer(), [])
  {
    OneOrderOf();
    samples := Ordered("x", Known(), OneAnswer(), OneOrder(), []);
  }

  /** In each order in which the maps may be ranged over, the path yields something. */
  lemma Ordered(a: string, t: Topology, q: Queries, o: Orders, common: seq<Sample>) returns (samples: seq<Sample>)
    requires OrdersOf(o, q)
    ensures IsPerEntity(samples, a, t, q, common)
  {
    samples := PerEntitySamples(a, t, q, o, common);
  }

  /** An archive with the volume file only. */
  function VolumeFile(records: seq<seq<string>>): seq<ArchiveEntry>
  {
    [File(VOLUME_FILE, Some(records))]
  }

  lemma OneAnswerIs()
    ensures LatestById(Flatten(Answered(OneAnswer().volume)), VolumeKey) == map["v" := Zero()]
    ensures LatestById(Flatten(Answered(OneAnswer().perf)), AppliancePerfKey) == map[]
    ensures LatestById(Flatten(Answered(OneAnswer().space)), ApplianceSpaceKey) == map[]
    ensures OwnReplies(OneAnswer())
  {
    var answers := Answered(OneAnswer().volume);
    assert answers == [[Zero()]] && answers[..0] == [];
    assert Flatten(answers) == [] + [Zero()] == [Zero()];
    assert [Zero()][..0] == [];
    assert LatestById([Zero()], VolumeKey) == LatestById([], VolumeKey)["v" := Zero()];
  }

  lemma VolumeFileRows(records: seq<seq<string>>)
    ensures FileRows(VolumeFile(records), VOLUME_FILE) == RowsOf(records)
    ensures FileRows(VolumeFile(records), PERF_FILE) == [] && FileRows(VolumeFile(records), SPACE_FILE) == []
  {
    assert |VOLUME_FILE| != |PERF_FILE| && |VOLUME_FILE| != |SPACE_FILE|;
    assert VolumeFile(records)[..0] == [];
  }

  lemma OneColumn(value: string)
    ensures RowOf(["volume_id"], [value]) == map["volume_id" := value]
  {
    assert ["volume_id"][..0] == [];
  }

  /** A row without any readable column reads as zero throughout. */
  lemma UnreadableIsZero(row: Row, parse: Parser)
    requires forall column :: column in row ==> column == "volume_id"
    ensures VolumeCells(row, parse) == VolumeValues(Zero())
  {
    Unreadable(row, ["avg_read_iops", "read_iops"], parse);
    Unreadable(row, ["avg_write_iops", "write_iops"], parse);
    Unreadable(row, ["avg_total_iops", "total_iops"], parse);
    Unreadable(row, ["avg_read_bandwidth", "read_bandwidth"], parse);
    Unreadable(row, ["avg_write_bandwidth", "write_bandwidth"], parse);
    Unreadable(row, ["avg_read_latency"], parse);
    Unreadable(row, ["avg_write_latency"], parse);
    Unreadable(row, ["avg_io_size"], parse);
  }

  lemma Unreadable(row: Row, columns: seq<string>, parse: Parser)
    requires forall column :: column in row ==> column == "volume_id"
    requires forall k :: 0 <= k < |columns| ==> columns[k] != "" && columns[k][0] != 'v'
    ensures CsvValue(row, columns, parse) == 0.0
  {
    forall k | 0 <= k < |columns|
      ensures !Readable(row, columns[k], parse)
    {
      assert "volume_id"[0] == 'v';
    }
  }

  lemma NoRowsMatch<V>(column: string, agrees: (Row, V) -> bool)
    ensures RowsMatch([], column, map[], agrees)
  {
    assert Ids([], column) == {};
  }

  lemma OneRowMatches<V>(row: Row, column: string, id: string, r: V, agrees: (Row, V) -> bool)
    requires Cell(row, column) == id && agrees(row, r)
    ensures RowsMatch([row], column, map[id := r], agrees)
  {
    assert [row][0] == row && Ids([row], column) == {id};
  }

  lemma SingleRow(parse: Parser)
    ensures var row: Row := map["volume_id" := "v"];
      Cell(row, "volume_id") == "v" && VolumeRowAgrees(Known(), parse, row, Zero())
  {
    var row: Row := map["volume_id" := "v"];
    UnreadableIsZero(row, parse);
    assert |"appliance_id"| != |"volume_id"|;
  }

  lemma SingleRowMatches(parse: Parser)
    ensures FilesMatch(Known(), VolumeFile([["volume_id"], ["v"]]), OneAnswer(), parse)
  {
    var records, row: Row := [["volume_id"], ["v"]], map["volume_id" := "v"];
    OneAnswerIs();
    VolumeFileRows(records);
    OneColumn("v");
    assert RowsOf(records) == [row];
    SingleRow(parse);
    NoRowsMatch("appliance_id", PerfAgrees(parse));
    NoRowsMatch("appliance_id", SpaceAgrees(parse));
    OneRowMatches(row, "volume_id", "v", Zero(), VolumeAgrees(Known(), parse));
  }

  /** With the one row that matches, the paths agree whatever the parser reads. */
  lemma SingleRowAgrees(parse: Parser, samples: seq<Sample>)
    requires IsPerEntity(samples, "x", Known(), OneAnswer(), [])
    ensures multiset(samples) == multiset(BulkSamples("x", Known(), VolumeFile([["volume_id"], ["v"]]), parse, []))
  {
    OneAnswerIs();
    SingleRowMatches(parse);
    PathsAgreeIff("x", Known(), VolumeFile([["volume_id"], ["v"]]), OneAnswer(), parse, [], samples);
  }

  /** With the same row twice they differ: only the per-entity path deduplicates. */
  lemma RepeatedRowDiffers(parse: Parser, samples: seq<Sample>)
    requires IsPerEntity(samples, "x", Known(), OneAnswer(), [])
    ensures multiset(samples) !=
      multiset(BulkSamples("x", Known(), VolumeFile([["volume_id"], ["v"], ["v"]]), parse, []))
  {
    var records := [["volume_id"], ["v"], ["v"]];
    OneAnswerIs();
    VolumeFileRows(records);
    OneColumn("v");
    var rows := RowsOf(records);
    assert rows[0] == rows[1] && !DistinctIds(rows, "volume_id");
    PathsAgreeIff("x", Known(), VolumeFile(records), OneAnswer(), parse, [], samples);
  }

  /** A row that names an appliance for a volume of which the inventory lists none: only the bulk path uses it. */
  lemma FallbackDiffers(parse: Parser, samples: seq<Sample>)
    requires IsPerEntity(samples, "x", Known(), OneAnswer(), [])
    ensures multiset(samples) !=
      multiset(BulkSamples("x", Known(), VolumeFile([["volume_id", "appliance_id"], ["v", "A1"]]), parse, []))
  {
    var records := [["volume_id", "appliance_id"], ["v", "A1"]];
    OneAnswerIs();
    VolumeFileRows(records);
    var rows := RowsOf(records);
    assert rows[0] == RowOf(["volume_id", "appliance_id"], ["v", "A1"]);
    TwoColumns();
    assert Cell(rows[0], "volume_id") == "v" && Cell(rows[0], "appliance_id") == "A1";
    assert !VolumeRowAgrees(Known(), parse, rows[0], Zero());
    PathsAgreeIff("x", Known(), VolumeFile(records), OneAnswer(), parse, [], samples);
  }

  lemma TwoColumns()
    ensures var row := RowOf(["volume_id", "appliance_id"], ["v", "A1"]);
      Cell(row, "volume_id") == "v" && Cell(row, "appliance_id") == "A1"
  {
    var header, rec := ["volume_id", "appliance_id"], ["v", "A1"];
    assert |header[0]| == 9 && |header[1]| == 12;
    RowIsLastCell(header, rec, "volume_id");
    RowIsLastCell(header, rec, "appliance_id");
    assert LastUnder(header, rec, "volume_id", 0) && LastUnder(header, rec, "appliance_id", 1);
  }
}
