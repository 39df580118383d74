/** The bulk export: CSV records become row maps (bulk.go), and rows become the same eight samples
    per entity as on the per-entity path (derive_bulk.go). */
module Bulk {
  import opened Prelude
  import opened Metrics
  import opened Topologies
  import opened Blocks
  import opened PerEntity

  type Row = map<string, string>

  /** strconv.ParseFloat, as far as the exporter cares. */
  type Parser = string -> Option<real>

  function Cell(row: Row, column: string): string
  {
    Lookup(row, column)
  }

  // ---------------------------------------------------------------- rows

  /** The cells of one record under the header; a record may be shorter or longer than the header. */
  function RowOf(header: seq<string>, rec: seq<string>): Row
  {
    if header == [] then map[]
    else
      var n := |header| - 1;
      var rest := RowOf(header[..n], rec);
      if n < |rec| then rest[header[n] := rec[n]] else rest
  }

  /** Position i is the last one under this column name that the record still has a cell for. */
  predicate LastUnder(header: seq<string>, rec: seq<string>, column: string, i: int)
  {
    && 0 <= i < |header| && i < |rec| && header[i] == column
    && forall j :: i < j < |header| && j < |rec| ==> header[j] != column
  }

  /** A row has exactly the columns the record reaches, and a repeated column keeps its last cell. */
  lemma {:induction false} RowIsLastCell(header: seq<string>, rec: seq<string>, column: string)
    ensures column in RowOf(header, rec) <==> exists i :: LastUnder(header, rec, column, i)
    ensures forall i :: LastUnder(header, rec, column, i) ==> Cell(RowOf(header, rec), column) == rec[i]
  {
    if header != [] {
      var n := |header| - 1;
      RowIsLastCell(header[..n], rec, column);
      if n < |rec| && header[n] == column {
        assert LastUnder(header, rec, column, n);
      } else {
        forall i
          ensures LastUnder(header[..n], rec, column, i) <==> LastUnder(header, rec, column, i)
        {
        }
      }
    }
  }

  /** The records after the header line, as rows; a file without any line has no rows. */
  function RowsOf(records: seq<seq<string>>): (rows: seq<Row>)
    ensures |rows| == if records == [] then 0 else |records| - 1
  {
    if records == [] then []
    else seq(|records| - 1, i requires 0 <= i < |records| - 1 => RowOf(records[0], records[i + 1]))
  }

  /** The row has exactly the columns for which the record still has a cell, each with the last such cell. */
  ghost predicate IsRecord(row: Row, header: seq<string>, rec: seq<string>)
  {
    forall column ::
      && (column in row <==> exists i :: LastUnder(header, rec, column, i))
      && forall i :: LastUnder(header, rec, column, i) ==> Cell(row, column) == rec[i]
  }

  lemma RowOfIsRecord(header: seq<string>, rec: seq<string>)
    ensures IsRecord(RowOf(header, rec), header, rec)
  {
    forall column {
      RowIsLastCell(header, rec, column);
    }
  }

  /** Row k is record k + 1 under the header. */
  method ParseCsv(records: seq<seq<string>>) returns (rows: seq<Row>)
    ensures rows == RowsOf(records)
    ensures forall k :: 0 <= k < |rows| ==> IsRecord(rows[k], records[0], records[k + 1])
  {
    rows := [];
    if |records| < 1 {
      return;
    }
    var header := records[0];
    for k := 1 to |records|
      invariant |rows| == k - 1
      invariant forall i :: 0 <= i < k - 1 ==> rows[i] == RowOf(header, records[i + 1])
      invariant forall i :: 0 <= i < k - 1 ==> IsRecord(rows[i], header, records[i + 1])
    {
      var row := ParseRecord(header, records[k]);
      RowOfIsRecord(header, records[k]);
      rows := rows + [row];
    }
  }

  method ParseRecord(header: seq<string>, rec: seq<string>) returns (row: Row)
    ensures row == RowOf(header, rec)
  {
    row := map[];
    for i := 0 to |header|
      invariant row == RowOf(header[..i], rec)
    {
      assert header[..i + 1][..i] == header[..i];
      if i < |rec| {
        row := row[header[i] := rec[i]];
      }
    }
    assert header[..|header|] == header;
  }

  // ---------------------------------------------------------------- cells

  predicate Readable(row: Row, column: string, parse: Parser)
  {
    column in row && row[column] != "" && parse(row[column]).Some?
  }

  predicate FirstReadable(row: Row, columns: seq<string>, parse: Parser, i: int)
  {
    && 0 <= i < |columns| && Readable(row, columns[i], parse)
    && forall j :: 0 <= j < i ==> !Readable(row, columns[j], parse)
  }

  /** The first readable column decides; without one the value is zero. */
  function CsvValue(row: Row, columns: seq<string>, parse: Parser): (v: real)
    ensures (forall i :: 0 <= i < |columns| ==> !Readable(row, columns[i], parse)) ==> v == 0.0
    ensures forall i :: FirstReadable(row, columns, parse, i) ==> v == parse(row[columns[i]]).value
  {
    if columns == [] then 0.0
    else if Readable(row, columns[0], parse) then parse(row[columns[0]]).value
    else
      assert forall i :: 0 < i < |columns| ==> columns[i] == columns[1..][i - 1];
      assert forall i :: FirstReadable(row, columns, parse, i) ==> FirstReadable(row, columns[1..], parse, i - 1);
      CsvValue(row, columns[1..], parse)
  }

  /** Column by column: absent, empty and unparsable cells are passed over, and the next one decides. */
  lemma CsvValueByCell(row: Row, column: string, rest: seq<string>, parse: Parser)
    ensures var v := CsvValue(row, [column] + rest, parse);
      if column !in row || row[column] == "" || parse(row[column]).None? then v == CsvValue(row, rest, parse)
      else Some(v) == parse(row[column])
    ensures CsvValue(row, [], parse) == 0.0
  {
    assert ([column] + rest)[1..] == rest;
  }

  method CsvFloat(row: Row, columns: seq<string>, parse: Parser) returns (v: real)
    ensures v == CsvValue(row, columns, parse)
  {
    for i := 0 to |columns|
      invariant forall j :: 0 <= j < i ==> !Readable(row, columns[j], parse)
    {
      var column := columns[i];
      if column !in row || row[column] == "" {
        continue;
      }
      var parsed := parse(row[column]);
      if parsed.None? {
        continue;
      }
      return parsed.value;
    }
    v := 0.0;
  }

  // ---------------------------------------------------------------- what each row contributes

  function VolumeCells(row: Row, parse: Parser): Eight
  {
    [CsvValue(row, ["avg_read_iops", "read_iops"], parse), CsvValue(row, ["avg_write_iops", "write_iops"], parse),
     CsvValue(row, ["avg_total_iops", "total_iops"], parse),
     CsvValue(row, ["avg_read_bandwidth", "read_bandwidth"], parse),
     CsvValue(row, ["avg_write_bandwidth", "write_bandwidth"], parse), CsvValue(row, ["avg_read_latency"], parse),
     CsvValue(row, ["avg_write_latency"], parse), CsvValue(row, ["avg_io_size"], parse)]
  }

  function PerfCells(row: Row, parse: Parser): Eight
  {
    [CsvValue(row, ["avg_read_iops", "read_iops"], parse), CsvValue(row, ["avg_write_iops", "write_iops"], parse),
     CsvValue(row, ["avg_total_iops", "total_iops"], parse), CsvValue(row, ["avg_read_bandwidth", "read_bandwidth"],
                                                                      parse),
     CsvValue(row, ["avg_write_bandwidth", "write_bandwidth"], parse), CsvValue(row, ["avg_read_latency"], parse),
     CsvValue(row, ["avg_write_latency"], parse),
     CsvValue(row, ["avg_io_workload_cpu_utilization", "io_workload_cpu_utilization"], parse)]
  }

  function SpaceCells(row: Row, parse: Parser): Eight
  {
    [CsvValue(row, ["physical_total", "last_physical_total"], parse),
     CsvValue(row, ["physical_used", "last_physical_used"], parse),
     CsvValue(row, ["logical_provisioned", "last_logical_provisioned"], parse),
     CsvValue(row, ["logical_used", "last_logical_used"], parse),
     CsvValue(row, ["data_reduction", "last_data_reduction"], parse),
     CsvValue(row, ["efficiency_ratio", "last_efficiency_ratio"], parse),
     CsvValue(row, ["snapshot_savings", "last_snapshot_savings"], parse),
     CsvValue(row, ["thin_savings", "last_thin_savings"], parse)]
  }

  /** The inventory's appliance id, or the row's own when the inventory has none. */
  function RowAppliance(t: Topology, row: Row): string
  {
    var known := t.VolumeInfo(Cell(row, "volume_id")).1;
    if known == "" then Cell(row, "appliance_id") else known
  }

  function BulkVolumeBlock(a: string, t: Topology, row: Row, parse: Parser): Block
  {
    Block(VolumeLabelsOf(a, t, Cell(row, "volume_id"), RowAppliance(t, row)), VolumeCells(row, parse))
  }

  function BulkPerfBlock(a: string, t: Topology, row: Row, parse: Parser): Block
  {
    Block(ApplianceLabelsOf(a, t, Cell(row, "appliance_id")), PerfCells(row, parse))
  }

  function BulkSpaceBlock(a: string, t: Topology, row: Row, parse: Parser): Block
  {
    Block(ApplianceLabelsOf(a, t, Cell(row, "appliance_id")), SpaceCells(row, parse))
  }

  function BulkVolumeFn(a: string, t: Topology, parse: Parser): Row -> Block
  {
    row => BulkVolumeBlock(a, t, row, parse)
  }

  function BulkPerfFn(a: string, t: Topology, parse: Parser): Row -> Block
  {
    row => BulkPerfBlock(a, t, row, parse)
  }

  function BulkSpaceFn(a: string, t: Topology, parse: Parser): Row -> Block
  {
    row => BulkSpaceBlock(a, t, row, parse)
  }

  /** One block per row: rows are not deduplicated. */
  function RowBlocks(rows: seq<Row>, g: Row -> Block): (blocks: seq<Block>)
  {
    seq(|rows|, i requires 0 <= i < |rows| => g(rows[i]))
  }

  // ---------------------------------------------------------------- the loops

  method DeriveBulkVolumePerf(a: string, t: Topology, rows: seq<Row>, parse: Parser) returns (out: seq<Sample>)
    ensures out == Render(VOLUME_NAMES, RowBlocks(rows, BulkVolumeFn(a, t, parse)))
  {
    out := [];
    ghost var blocks := RowBlocks(rows, BulkVolumeFn(a, t, parse));
    for i := 0 to |rows|
      invariant out == Render(VOLUME_NAMES, blocks[..i])
    {
      var r := rows[i];
      var volId := Cell(r, "volume_id");
      var (volName, applId, _) := t.VolumeInfo(volId);
      if volName == "" {
        volName := volId;
      }
      if applId == "" {
        applId := Cell(r, "appliance_id");
      }
      var (vgId, vgName) := t.VolumeGroupOf(volId);
      var labels := VolumeLabels(a, t.ClusterId(), volName, volId, applId, t.ApplianceName(applId), vgName, vgId);
      var more := VolumeRowSamples(labels, r, parse);
      RenderNext(VOLUME_NAMES, blocks, i);
      out := out + more;
    }
    assert blocks[..|rows|] == blocks;
  }

  method VolumeRowSamples(labels: seq<Label>, r: Row, parse: Parser) returns (out: seq<Sample>)
    ensures out == RenderOne(VOLUME_NAMES, Block(labels, VolumeCells(r, parse)))
  {
    var readIops := CsvFloat(r, ["avg_read_iops", "read_iops"], parse);
    var writeIops := CsvFloat(r, ["avg_write_iops", "write_iops"], parse);
    var totalIops := CsvFloat(r, ["avg_total_iops", "total_iops"], parse);
    var readBandwidth := CsvFloat(r, ["avg_read_bandwidth", "read_bandwidth"], parse);
    var writeBandwidth := CsvFloat(r, ["avg_write_bandwidth", "write_bandwidth"], parse);
    var readLatency := CsvFloat(r, ["avg_read_latency"], parse);
    var writeLatency := CsvFloat(r, ["avg_write_latency"], parse);
    var ioSize := CsvFloat(r, ["avg_io_size"], parse);
    out := [
      Sample(VOLUME + "read_iops", labels, readIops),
      Sample(VOLUME + "write_iops", labels, writeIops),
      Sample(VOLUME + "total_iops", labels, totalIops),
      Sample(VOLUME + "read_bandwidth_bytes_per_second", labels, readBandwidth),
      Sample(VOLUME + "write_bandwidth_bytes_per_second", labels, writeBandwidth),
      Sample(VOLUME + "read_latency_microseconds", labels, readLatency),
      Sample(VOLUME + "write_latency_microseconds", labels, writeLatency),
      Sample(VOLUME + "avg_io_size_bytes", labels, ioSize)];
  }

  method DeriveBulkAppliancePerf(a: string, t: Topology, rows: seq<Row>, parse: Parser) returns (out: seq<Sample>)
    ensures out == Render(APPLIANCE_NAMES, RowBlocks(rows, BulkPerfFn(a, t, parse)))
  {
    out := [];
    ghost var blocks := RowBlocks(rows, BulkPerfFn(a, t, parse));
    for i := 0 to |rows|
      invariant out == Render(APPLIANCE_NAMES, blocks[..i])
    {
      var applId := Cell(rows[i], "appliance_id");
      var labels := ApplianceLabels(a, t.ClusterId(), t.ApplianceName(applId), applId, t.ApplianceServiceTag(applId));
      var more := PerfRowSamples(labels, rows[i], parse);
      RenderNext(APPLIANCE_NAMES, blocks, i);
      out := out + more;
    }
    assert blocks[..|rows|] == blocks;
  }

  method PerfRowSamples(labels: seq<Label>, r: Row, parse: Parser) returns (out: seq<Sample>)
    ensures out == RenderOne(APPLIANCE_NAMES, Block(labels, PerfCells(r, parse)))
  {
    var readIops := CsvFloat(r, ["avg_read_iops", "read_iops"], parse);
    var writeIops := CsvFloat(r, ["avg_write_iops", "write_iops"], parse);
    var totalIops := CsvFloat(r, ["avg_total_iops", "total_iops"], parse);
    var readBandwidth := CsvFloat(r, ["avg_read_bandwidth", "read_bandwidth"], parse);
    var writeBandwidth := CsvFloat(r, ["avg_write_bandwidth", "write_bandwidth"], parse);
    var readLatency := CsvFloat(r, ["avg_read_latency"], parse);
    var writeLatency := CsvFloat(r, ["avg_write_latency"], parse);
    var cpu := CsvFloat(r, ["avg_io_workload_cpu_utilization", "io_workload_cpu_utilization"], parse);
    out := [
      Sample(APPLIANCE + "read_iops", labels, readIops),
      Sample(APPLIANCE + "write_iops", labels, writeIops),
      Sample(APPLIANCE + "total_iops", labels, totalIops),
      Sample(APPLIANCE + "read_bandwidth_bytes_per_second", labels, readBandwidth),
      Sample(APPLIANCE + "write_bandwidth_bytes_per_second", labels, writeBandwidth),
      Sample(APPLIANCE + "read_latency_microseconds", labels, readLatency),
      Sample(APPLIANCE + "write_latency_microseconds", labels, writeLatency),
      Sample(APPLIANCE + "io_workload_cpu_utilization", labels, cpu)];
  }

  method DeriveBulkApplianceSpace(a: string, t: Topology, rows: seq<Row>, parse: Parser) returns (out: seq<Sample>)
    ensures out == Render(SPACE_NAMES, RowBlocks(rows, BulkSpaceFn(a, t, parse)))
  {
    out := [];
    ghost var blocks := RowBlocks(rows, BulkSpaceFn(a, t, parse));
    for i := 0 to |rows|
      invariant out == Render(SPACE_NAMES, blocks[..i])
    {
      var applId := Cell(rows[i], "appliance_id");
      var labels := ApplianceLabels(a, t.ClusterId(), t.ApplianceName(applId), applId, t.ApplianceServiceTag(applId));
      var more := SpaceRowSamples(labels, rows[i], parse);
      RenderNext(SPACE_NAMES, blocks, i);
      out := out + more;
    }
    assert blocks[..|rows|] == blocks;
  }

  method SpaceRowSamples(labels: seq<Label>, r: Row, parse: Parser) returns (out: seq<Sample>)
    ensures out == RenderOne(SPACE_NAMES, Block(labels, SpaceCells(r, parse)))
  {
    var physicalTotal := CsvFloat(r, ["physical_total", "last_physical_total"], parse);
    var physicalUsed := CsvFloat(r, ["physical_used", "last_physical_used"], parse);
    var provisioned := CsvFloat(r, ["logical_provisioned", "last_logical_provisioned"], parse);
    var logicalUsed := CsvFloat(r, ["logical_used", "last_logical_used"], parse);
    var dataReduction := CsvFloat(r, ["data_reduction", "last_data_reduction"], parse);
    var efficiency := CsvFloat(r, ["efficiency_ratio", "last_efficiency_ratio"], parse);
    var snapshotSavings := CsvFloat(r, ["snapshot_savings", "last_snapshot_savings"], parse);
    var thinSavings := CsvFloat(r, ["thin_savings", "last_thin_savings"], parse);
    out := [
      Sample(APPLIANCE + "physical_total_bytes", labels, physicalTotal),
      Sample(APPLIANCE + "physical_used_bytes", labels, physicalUsed),
      Sample(APPLIANCE + "logical_provisioned_bytes", labels, provisioned),
      Sample(APPLIANCE + "logical_used_bytes", labels, logicalUsed),
      Sample(APPLIANCE + "data_reduction_ratio", labels, dataReduction),
      Sample(APPLIANCE + "efficiency_ratio", labels, efficiency),
      Sample(APPLIANCE + "snapshot_savings_ratio", labels, snapshotSavings),
      Sample(APPLIANCE + "thin_savings_ratio", labels, thinSavings)];
  }
}
