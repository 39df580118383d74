/** Metric parity of the two export paths: exactly when do the bulk rows and the per-entity
    responses yield the same samples, equally often? */
module Parity {
  import opened Prelude
  import opened Metrics
  import opened Topologies
  import opened Blocks
  import opened PerEntity
  import opened Bulk

  // ---------------------------------------------------------------- one kind of row

  predicate DistinctIds(rows: seq<Row>, column: string)
  {
    forall i, j :: 0 <= i < j < |rows| ==> Cell(rows[i], column) != Cell(rows[j], column)
  }

  function Ids(rows: seq<Row>, column: string): set<string>
  {
    set i | 0 <= i < |rows| :: Cell(rows[i], column)
  }

  /** The rows are about the answered ids, each once, and agree with the newest response of each. */
  ghost predicate RowsMatch<V>(rows: seq<Row>, column: string, latest: map<string, V>, agrees: (Row, V) -> bool)
  {
    && DistinctIds(rows, column) && Ids(rows, column) == latest.Keys
    && forall i :: 0 <= i < |rows| && Cell(rows[i], column) in latest ==> agrees(rows[i], latest[Cell(rows[i], column)])
  }

  /** The block functions put the id into the fourth label. */
  ghost predicate TagsById<V(!new)>(f: (string, V) -> Block, g: Row -> Block, column: string)
  {
    && (forall id, r :: |f(id, r).labels| > 3 && f(id, r).labels[3].value == id)
    && forall row :: |g(row).labels| > 3 && g(row).labels[3].value == Cell(row, column)
  }

  ghost predicate AgreesIsEqual<V(!new)>(f: (string, V) -> Block, g: Row -> Block, column: string,
                                  agrees: (Row, V) -> bool)
  {
    forall row, r :: agrees(row, r) <==> f(Cell(row, column), r) == g(row)
  }

  lemma EntityTags<V(!new)>(m: map<string, V>, order: seq<string>, f: (string, V) -> Block, g: Row -> Block,
                     column: string)
    requires Ordering(order, m) && TagsById(f, g, column)
    ensures var blocks := BlocksOf(m, order, f); Tagged(blocks) && DistinctTags(blocks) && Tags(blocks) == m.Keys
  {
    var blocks := BlocksOf(m, order, f);
    forall i | 0 <= i < |order|
      ensures |blocks[i].labels| > 3 && blocks[i].labels[3].value == order[i]
    {
      assert order[i] in Elems(order);
    }
    forall id | id in m
      ensures id in Tags(blocks)
    {
      assert id in Elems(order);
    }
    forall id | id in Tags(blocks)
      ensures id in m
    {
      var i :| 0 <= i < |order| && blocks[i].labels[3].value == id;
      assert order[i] in Elems(order);
    }
  }

  lemma RowTags<V(!new)>(rows: seq<Row>, f: (string, V) -> Block, g: Row -> Block, column: string)
    requires TagsById(f, g, column)
    ensures var blocks := RowBlocks(rows, g);
      Tagged(blocks) && (DistinctTags(blocks) <==> DistinctIds(rows, column)) && Tags(blocks) == Ids(rows, column)
  {
    var blocks := RowBlocks(rows, g);
    assert forall i :: 0 <= i < |rows| ==> blocks[i].labels[3].value == Cell(rows[i], column);
  }

  /** Rows and responses give the same samples, equally often, if and only if they match. */
  lemma ParityIff<V(!new)>(names: EightNames, m: map<string, V>, order: seq<string>, f: (string, V) -> Block,
                           rows: seq<Row>, g: Row -> Block, column: string, agrees: (Row, V) -> bool)
    requires names.Distinct() && Ordering(order, m) && TagsById(f, g, column) && AgreesIsEqual(f, g, column, agrees)
    ensures multiset(Render(names, BlocksOf(m, order, f))) == multiset(Render(names, RowBlocks(rows, g)))
      <==> RowsMatch(rows, column, m, agrees)
  {
    var mine, other := BlocksOf(m, order, f), RowBlocks(rows, g);
    EntityTags(m, order, f, g, column);
    RowTags(rows, f, g, column);
    RenderAgreesIff(names, mine, other);
    if Corresponds(mine, other) {
      forall i | 0 <= i < |rows| && Cell(rows[i], column) in m
        ensures agrees(rows[i], m[Cell(rows[i], column)])
      {
        var id := Cell(rows[i], column);
        assert id in Elems(order);
        var k :| 0 <= k < |order| && order[k] == id;
        assert mine[k] == f(id, m[id]) && other[i] == g(rows[i]);
      }
    }
    if RowsMatch(rows, column, m, agrees) {
      forall k, i | 0 <= k < |mine| && 0 <= i < |other| && mine[k].labels[3].value == other[i].labels[3].value
        ensures mine[k] == other[i]
      {
        assert order[k] in Elems(order);
        assert mine[k] == f(order[k], m[order[k]]) && other[i] == g(rows[i]);
        assert agrees(rows[i], m[order[k]]);
      }
    }
  }

  // ---------------------------------------------------------------- volumes and appliances

  /** The row reads as the response does, and does not name an appliance the inventory is silent about. */
  predicate VolumeRowAgrees(t: Topology, parse: Parser, row: Row, r: VolumePerf)
  {
    && VolumeCells(row, parse) == VolumeValues(r)
    && (t.VolumeInfo(Cell(row, "volume_id")).1 != "" || Cell(row, "appliance_id") == "")
  }

  function VolumeAgrees(t: Topology, parse: Parser): (Row, VolumePerf) -> bool
  {
    (row: Row, r: VolumePerf) => VolumeRowAgrees(t, parse, row, r)
  }

  function PerfAgrees(parse: Parser): (Row, AppliancePerf) -> bool
  {
    (row: Row, r: AppliancePerf) => PerfCells(row, parse) == AppliancePerfValues(r)
  }

  function SpaceAgrees(parse: Parser): (Row, ApplianceSpace) -> bool
  {
    (row: Row, r: ApplianceSpace) => SpaceCells(row, parse) == ApplianceSpaceValues(r)
  }

  lemma VolumeLabelPositions(a: string, t: Topology, volId: string, applId: string)
    ensures var labels := VolumeLabelsOf(a, t, volId, applId);
      labels[3] == Label("volume_id", volId) && labels[4] == Label("appliance_id", applId)
  {
  }

  lemma VolumeTags(a: string, t: Topology, parse: Parser)
    ensures TagsById(VolumeBlockFn(a, t), BulkVolumeFn(a, t, parse), "volume_id")
  {
    forall id, applId {
      VolumeLabelPositions(a, t, id, applId);
    }
  }

  lemma VolumeBlocksEqualIff(a: string, t: Topology, parse: Parser, row: Row, r: VolumePerf)
    ensures VolumeAgrees(t, parse)(row, r)
      <==> VolumeBlock(a, t, Cell(row, "volume_id"), r) == BulkVolumeBlock(a, t, row, parse)
  {
    var id := Cell(row, "volume_id");
    VolumeLabelPositions(a, t, id, t.VolumeInfo(id).1);
    VolumeLabelPositions(a, t, id, RowAppliance(t, row));
  }

  lemma VolumeParityIff(a: string, t: Topology, m: map<string, VolumePerf>, order: seq<string>, rows: seq<Row>,
                        parse: Parser)
    requires Ordering(order, m)
    ensures multiset(Render(VOLUME_NAMES, BlocksOf(m, order, VolumeBlockFn(a, t)))) ==
            multiset(Render(VOLUME_NAMES, RowBlocks(rows, BulkVolumeFn(a, t, parse))))
      <==> RowsMatch(rows, "volume_id", m, VolumeAgrees(t, parse))
  {
    NamesDiffer();
    VolumeTags(a, t, parse);
    forall row, r {
      VolumeBlocksEqualIff(a, t, parse, row, r);
    }
    ParityIff(VOLUME_NAMES, m, order, VolumeBlockFn(a, t), rows, BulkVolumeFn(a, t, parse), "volume_id",
              VolumeAgrees(t, parse));
  }

  lemma ApplianceLabelPosition(a: string, t: Topology, applId: string)
    ensures ApplianceLabelsOf(a, t, applId)[3] == Label("appliance_id", applId)
  {
  }

  lemma PerfParityIff(a: string, t: Topology, m: map<string, AppliancePerf>, order: seq<string>, rows: seq<Row>,
                      parse: Parser)
    requires Ordering(order, m)
    ensures multiset(Render(APPLIANCE_NAMES, BlocksOf(m, order, AppliancePerfBlockFn(a, t)))) ==
            multiset(Render(APPLIANCE_NAMES, RowBlocks(rows, BulkPerfFn(a, t, parse))))
      <==> RowsMatch(rows, "appliance_id", m, PerfAgrees(parse))
  {
    NamesDiffer();
    forall id {
      ApplianceLabelPosition(a, t, id);
    }
    ParityIff(APPLIANCE_NAMES, m, order, AppliancePerfBlockFn(a, t), rows, BulkPerfFn(a, t, parse), "appliance_id",
              PerfAgrees(parse));
  }

  lemma SpaceParityIff(a: string, t: Topology, m: map<string, ApplianceSpace>, order: seq<string>, rows: seq<Row>,
                       parse: Parser)
    requires Ordering(order, m)
    ensures multiset(Render(SPACE_NAMES, BlocksOf(m, order, ApplianceSpaceBlockFn(a, t)))) ==
            multiset(Render(SPACE_NAMES, RowBlocks(rows, BulkSpaceFn(a, t, parse))))
      <==> RowsMatch(rows, "appliance_id", m, SpaceAgrees(parse))
  {
    NamesDiffer();
    forall id {
      ApplianceLabelPosition(a, t, id);
    }
    ParityIff(SPACE_NAMES, m, order, ApplianceSpaceBlockFn(a, t), rows, BulkSpaceFn(a, t, parse), "appliance_id",
              SpaceAgrees(parse));
  }
}
