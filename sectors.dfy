/** The sector figures `update_sector_performance` reads back from the `assets` table
    (data_setup/pipelines/data_collection_pipeline.py), under SQL's aggregate rules:
    `COUNT(*)` counts every row, `SUM` and `AVG` skip NULL, and `SUM` or `AVG` over no
    non-NULL value is NULL. */
module SectorAggregation {
  import opened Scalars
  import opened Database

  /** Positions of the columns the queries read, in the order `insert_asset` binds them. */
  const SectorColumn: nat := 7
  const MarketCapColumn: nat := 10
  const PeRatioColumn: nat := 12
  const DividendYieldColumn: nat := 16

  /** Rows of the `assets` table. */
  predicate AssetRows(rows: seq<Row>) {
    forall i :: 0 <= i < |rows| ==> |rows[i]| == Arity(Assets)
  }

  /** A stored value as SQL arithmetic sees it; None is NULL. */
  function SqlNumber(v: Value): Option<real> {
    match v
    case VInt(i) => Some(i as real)
    case VReal(r) => Some(r)
    case _ => None
  }

  /** The numeric columns only ever hold numbers or NULL: `clean_value` writes nothing else there. */
  lemma BoundMetricsAreNumbers(asset: Payload, i: nat)
    requires BindAsset(asset).Ok? && i < 31
    ensures var v := BindAsset(asset).value[10 + i]; v.VInt? || v.VReal? || v.VNone?
  {
    BindAssetShape(asset);
  }

  // ---------------------------------------------------------------------------
  // WHERE sector = ?
  // ---------------------------------------------------------------------------

  /** The rows `WHERE sector = ?` selects, in table order. */
  function InSector(rows: seq<Row>, sector: Value): (r: seq<Row>)
    requires AssetRows(rows)
    ensures AssetRows(r) && |r| <= |rows|
    ensures forall i :: 0 <= i < |r| ==> r[i][SectorColumn] == sector
  {
    if rows == [] then []
    else
      var prefix := rows[..|rows| - 1];
      var last := rows[|rows| - 1];
      assert forall i :: 0 <= i < |rows| - 1 ==> rows[i] == prefix[i];
      InSector(prefix, sector) + (if last[SectorColumn] == sector then [last] else [])
  }

  /** The filter keeps exactly the table's rows of that sector. */
  lemma {:induction false} InSectorSelects(rows: seq<Row>, sector: Value)
    requires AssetRows(rows)
    ensures forall i :: 0 <= i < |InSector(rows, sector)| ==> InSector(rows, sector)[i] in rows
    ensures forall i :: 0 <= i < |rows| && rows[i][SectorColumn] == sector ==> rows[i] in InSector(rows, sector)
  {
    if rows != [] {
      var prefix := rows[..|rows| - 1];
      assert forall i :: 0 <= i < |rows| - 1 ==> rows[i] == prefix[i];
      InSectorSelects(prefix, sector);
    }
  }

  /** An appended row joins its sector's rows at the end. */
  lemma InSectorAppend(rows: seq<Row>, row: Row, sector: Value)
    requires AssetRows(rows) && |row| == Arity(Assets)
    ensures AssetRows(rows + [row])
    ensures InSector(rows + [row], sector) == InSector(rows, sector) + (if row[SectorColumn] == sector then [row] else [])
  {
    var all := rows + [row];
    assert all[..|rows|] == rows;
  }

  // ---------------------------------------------------------------------------
  // SUM and AVG
  // ---------------------------------------------------------------------------

  /** The non-NULL numbers of a column, in table order. */
  function NonNull(rows: seq<Row>, col: nat): (xs: seq<real>)
    requires forall i :: 0 <= i < |rows| ==> col < |rows[i]|
    ensures |xs| <= |rows|
  {
    if rows == [] then []
    else
      var last := rows[|rows| - 1];
      NonNull(rows[..|rows| - 1], col) + (if SqlNumber(last[col]).Some? then [SqlNumber(last[col]).value] else [])
  }

  function Total(xs: seq<real>): real {
    if xs == [] then 0.0 else Total(xs[..|xs| - 1]) + xs[|xs| - 1]
  }

  /** `SUM(col)` */
  function SqlSum(rows: seq<Row>, col: nat): (r: Option<real>)
    requires forall i :: 0 <= i < |rows| ==> col < |rows[i]|
    ensures r.Some? <==> NonNull(rows, col) != []
    ensures r.Some? ==> r.value == Total(NonNull(rows, col))
  {
    var xs := NonNull(rows, col);
    if xs == [] then None else Some(Total(xs))
  }

  /** `AVG(col)` */
  function SqlAvg(rows: seq<Row>, col: nat): (r: Option<real>)
    requires forall i :: 0 <= i < |rows| ==> col < |rows[i]|
    ensures r.Some? <==> SqlSum(rows, col).Some?
  {
    var xs := NonNull(rows, col);
    if xs == [] then None else Some(Total(xs) / (|xs| as real))
  }

  /** AVG is the mean of the non-NULL values: times their count, it gives back SUM. */
  lemma AvgIsMean(rows: seq<Row>, col: nat)
    requires forall i :: 0 <= i < |rows| ==> col < |rows[i]|
    requires SqlAvg(rows, col).Some?
    ensures SqlAvg(rows, col).value * (|NonNull(rows, col)| as real) == SqlSum(rows, col).value
  {
  }

  /** Appending a row appends its number, if it has one, to the column's numbers. */
  lemma NonNullAppend(rows: seq<Row>, row: Row, col: nat)
    requires forall i :: 0 <= i < |rows| ==> col < |rows[i]|
    requires col < |row|
    ensures NonNull(rows + [row], col) ==
      NonNull(rows, col) + (if SqlNumber(row[col]).Some? then [SqlNumber(row[col]).value] else [])
  {
    var all := rows + [row];
    assert all[..|rows|] == rows && all[|all| - 1] == row;
  }

  /** A row whose value is NULL leaves the sum and the average as they were. */
  lemma NullIsSkipped(rows: seq<Row>, row: Row, col: nat)
    requires forall i :: 0 <= i < |rows| ==> col < |rows[i]|
    requires col < |row| && SqlNumber(row[col]).None?
    ensures NonNull(rows + [row], col) == NonNull(rows, col)
    ensures SqlSum(rows + [row], col) == SqlSum(rows, col)
    ensures SqlAvg(rows + [row], col) == SqlAvg(rows, col)
  {
    NonNullAppend(rows, row, col);
    assert NonNull(rows + [row], col) == NonNull(rows, col);
  }

  /** A row with a number adds it to the sum, starting from 0 when the sum was NULL. */
  lemma NumberIsAdded(rows: seq<Row>, row: Row, col: nat)
    requires forall i :: 0 <= i < |rows| ==> col < |rows[i]|
    requires col < |row| && SqlNumber(row[col]).Some?
    ensures SqlSum(rows + [row], col) ==
      Some((if SqlSum(rows, col).Some? then SqlSum(rows, col).value else 0.0) + SqlNumber(row[col]).value)
  {
    var xs := NonNull(rows, col);
    var x := SqlNumber(row[col]).value;
    NonNullAppend(rows, row, col);
    assert NonNull(rows + [row], col) == xs + [x];
    assert Total(xs + [x]) == Total(xs) + x by {
      assert (xs + [x])[..|xs|] == xs;
    }
    if xs == [] {
      assert SqlSum(rows, col) == None && Total(xs) == 0.0;
    } else {
      assert SqlSum(rows, col) == Some(Total(xs));
    }
  }

  /** SUM is NULL exactly when every value is NULL (in particular over no rows). */
  lemma {:induction false} SumNullIffAllNull(rows: seq<Row>, col: nat)
    requires forall i :: 0 <= i < |rows| ==> col < |rows[i]|
    ensures SqlSum(rows, col).None? <==> forall i :: 0 <= i < |rows| ==> SqlNumber(rows[i][col]).None?
  {
    if rows != [] {
      var prefix := rows[..|rows| - 1];
      SumNullIffAllNull(prefix, col);
      assert forall i :: 0 <= i < |rows| - 1 ==> prefix[i] == rows[i];
    }
  }

  // ---------------------------------------------------------------------------
  // SELECT DISTINCT sector ... WHERE sector IS NOT NULL AND sector != ''
  // ---------------------------------------------------------------------------

  predicate Listed(sector: Value) {
    sector != VNone && sector != VStr("")
  }

  /** The distinct listed sectors, in order of first appearance. */
  function DistinctSectors(rows: seq<Row>): (ss: seq<Value>)
    requires AssetRows(rows)
    ensures forall i, j :: 0 <= i < j < |ss| ==> ss[i] != ss[j]
    ensures forall s :: s in ss <==> Listed(s) && exists i :: 0 <= i < |rows| && rows[i][SectorColumn] == s
  {
    if rows == [] then []
    else
      var prefix := rows[..|rows| - 1];
      var s := rows[|rows| - 1][SectorColumn];
      assert forall i :: 0 <= i < |rows| - 1 ==> prefix[i] == rows[i];
      var seen := DistinctSectors(prefix);
      if Listed(s) && s !in seen then seen + [s] else seen
  }

  // ---------------------------------------------------------------------------
  // The sector_performance rows
  // ---------------------------------------------------------------------------

  /** One record: sector, date, `int(asset_count)`, `int(total_market_cap)` or None,
      `float(avg_pe_ratio)` or None, `float(avg_dividend_yield)` or None. */
  function SectorRow(rows: seq<Row>, sector: Value, today: Date): (r: Row)
    requires AssetRows(rows)
    ensures |r| == Arity(SectorPerformance)
    ensures KeyOf(SectorPerformance, r) == [sector, VStr(Strftime(today))]
  {
    SectorRecord(sector, today, InSector(rows, sector))
  }

  /** The record built from one sector's member rows. */
  function SectorRecord(sector: Value, today: Date, members: seq<Row>): (r: Row)
    requires AssetRows(members)
    ensures |r| == Arity(SectorPerformance) && r[0] == sector && r[1] == VStr(Strftime(today))
  {
    var total := SqlSum(members, MarketCapColumn);
    var pe := SqlAvg(members, PeRatioColumn);
    var dy := SqlAvg(members, DividendYieldColumn);
    [sector, VStr(Strftime(today)), VInt(|members|),
     if total.Some? then VInt(Truncate(total.value)) else VNone,
     if pe.Some? then VReal(pe.value) else VNone,
     if dy.Some? then VReal(dy.value) else VNone]
  }

  /** The records of `update_sector_performance`, one per distinct listed sector. */
  function SectorRows(rows: seq<Row>, today: Date): (rs: seq<Row>)
    requires AssetRows(rows)
    ensures |rs| == |DistinctSectors(rows)|
    ensures WellShaped(rs, SectorPerformance)
    ensures forall i :: 0 <= i < |rs| ==> rs[i] == SectorRow(rows, DistinctSectors(rows)[i], today)
  {
    var ss := DistinctSectors(rows);
    seq(|ss|, i requires 0 <= i < |ss| => SectorRow(rows, ss[i], today))
  }

  /** An asset whose figures are all NULL still counts in `COUNT(*)` but leaves the
      total and both averages as they were. */
  lemma NullFiguresCountOnly(rows: seq<Row>, row: Row, sector: Value, today: Date)
    requires AssetRows(rows) && |row| == Arity(Assets) && row[SectorColumn] == sector
    requires row[MarketCapColumn] == VNone && row[PeRatioColumn] == VNone && row[DividendYieldColumn] == VNone
    ensures AssetRows(rows + [row])
    ensures SectorRow(rows + [row], sector, today)[2] == VInt(|InSector(rows, sector)| + 1)
    ensures SectorRow(rows + [row], sector, today)[3] == SectorRow(rows, sector, today)[3]
    ensures SectorRow(rows + [row], sector, today)[4] == SectorRow(rows, sector, today)[4]
    ensures SectorRow(rows + [row], sector, today)[5] == SectorRow(rows, sector, today)[5]
  {
    InSectorAppend(rows, row, sector);
    NullMemberFigures(InSector(rows, sector), row, sector, today);
  }

  lemma NullMemberFigures(members: seq<Row>, row: Row, sector: Value, today: Date)
    requires AssetRows(members) && |row| == Arity(Assets)
    requires row[MarketCapColumn] == VNone && row[PeRatioColumn] == VNone && row[DividendYieldColumn] == VNone
    ensures AssetRows(members + [row])
    ensures SectorRecord(sector, today, members + [row])[2] == VInt(|members| + 1)
    ensures SectorRecord(sector, today, members + [row])[3..] == SectorRecord(sector, today, members)[3..]
  {
    NullIsSkipped(members, row, MarketCapColumn);
    NullIsSkipped(members, row, PeRatioColumn);
    NullIsSkipped(members, row, DividendYieldColumn);
  }

  /** The records have pairwise different keys, so writing them leaves one row per
      sector and date. */
  lemma SectorKeysDistinct(rows: seq<Row>, today: Date)
    requires AssetRows(rows)
    ensures forall i, j :: 0 <= i < j < |SectorRows(rows, today)| ==>
      KeyOf(SectorPerformance, SectorRows(rows, today)[i]) != KeyOf(SectorPerformance, SectorRows(rows, today)[j])
  {
  }

  /** Upserting the records stores, for every listed sector, its figures under
      (sector, today). */
  lemma SectorTableAfterUpsert(t: Table, rows: seq<Row>, today: Date, sector: Value)
    requires AssetRows(rows) && Listed(sector)
    requires exists i :: 0 <= i < |rows| && rows[i][SectorColumn] == sector
    ensures var k := [sector, VStr(Strftime(today))];
      k in UpsertAll(t, SectorPerformance, SectorRows(rows, today))
      && UpsertAll(t, SectorPerformance, SectorRows(rows, today))[k] == SectorRow(rows, sector, today)
  {
    var ss := DistinctSectors(rows);
    var rs := SectorRows(rows, today);
    var i :| 0 <= i < |ss| && ss[i] == sector;
    SectorKeysDistinct(rows, today);
    UpsertAllLookup(t, SectorPerformance, rs, [sector, VStr(Strftime(today))]);
  }
}
