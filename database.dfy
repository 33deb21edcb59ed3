/** The database layer (data_setup/components/database_config.py): value cleaning, the
    43-column asset binding, `INSERT OR REPLACE` as an upsert on each table's key, the
    sqlite3 transaction (rows executed on the connection stay pending until `commit`),
    and the column preparation of `insert_daily_prices`. */
module Database {
  import opened Scalars
  import opened Frames

  // ---------------------------------------------------------------------------
  // clean_value
  // ---------------------------------------------------------------------------

  /** The conversions `clean_value` is asked for by `insert_asset`. */
  datatype Kind = KFloat | KInt | KDate

  /** Whether `datetime.strptime(value, ...)` is reached with something that is not a str:
      `if value and value != 'None'` lets any truthy non-string through. */
  predicate DateRaises(v: Value) {
    Truthy(v) && !v.VStr?
  }

  /** `clean_value(value, kind)`; Raised is the TypeError that escapes it. */
  function CleanValue(v: Value, kind: Kind): (r: Outcome<Value>)
    ensures IsSentinel(v) ==> r == Ok(VNone)
    ensures r.Raised? <==> kind == KDate && DateRaises(v)
    ensures r.Raised? ==> r.exc == TypeError
    ensures kind == KFloat ==> r == Ok(if !IsSentinel(v) && PyFloat(v).Some? then VReal(PyFloat(v).value) else VNone)
    ensures kind == KInt ==> r == Ok(if !IsSentinel(v) && PyFloat(v).Some? then VInt(Truncate(PyFloat(v).value)) else VNone)
    ensures kind == KDate && r.Ok? && r.value != VNone ==> v.VStr? && r.value.VDate? && Strptime(v.s) == Some(r.value.d)
    ensures kind == KDate && v.VStr? && !IsSentinel(v) && Strptime(v.s).Some? ==> r == Ok(VDate(Strptime(v.s).value))
  {
    if IsSentinel(v) then Ok(VNone)
    else
      match kind
      case KFloat => Ok(if PyFloat(v).Some? then VReal(PyFloat(v).value) else VNone)
      case KInt => Ok(if PyFloat(v).Some? then VInt(Truncate(PyFloat(v).value)) else VNone)
      case KDate =>
        if !Truthy(v) then Ok(VNone)
        else if v.VStr? then (if Strptime(v.s).Some? then Ok(VDate(Strptime(v.s).value)) else Ok(VNone))
        else Raised(TypeError)
  }

  /** Every date written as YYYY-MM-DD cleans back to itself. */
  lemma CleanDateReadsIsoDates(d: Date)
    ensures CleanValue(VStr(Strftime(d)), KDate) == Ok(VDate(d))
  {
    StrptimeInvertsStrftime(d);
  }

  /** The 'int' kind truncates toward zero rather than rounding or flooring. */
  lemma CleanIntTruncates()
    ensures CleanValue(VStr("-2.7"), KInt) == Ok(VInt(-2))
    ensures CleanValue(VReal(2.7), KInt) == Ok(VInt(2))
    ensures CleanValue(VReal(-0.5), KInt) == Ok(VInt(0))
  {
    var s := "2.7";
    assert IndexOf(s, '.') == 1 by {
      assert s[0] != '.' && s[1..] == ".7";
    }
    assert s[..1] == "2" && s[2..] == "7";
    assert DigitsValue("2") == 2 by { assert "2"[..0] == ""; }
    assert DigitsValue("7") == 7 by { assert "7"[..0] == ""; }
    assert "-2.7"[1..] == s;
    assert ParseFloat("-2.7") == Some(-27.0 / 10.0);
  }

  // ---------------------------------------------------------------------------
  // The asset row
  // ---------------------------------------------------------------------------

  /** The conversions that never raise. */
  datatype NumericKind = AsFloat | AsInt {
    function Kind(): (k: Kind)
      ensures k != KDate
    {
      if AsFloat? then KFloat else KInt
    }
  }

  /** The 31 numeric columns of the INSERT, in column order, with the key each is read
      from and the conversion applied to it. */
  const MetricFields: seq<(string, NumericKind)> := [
    ("MarketCapitalization", AsInt), ("EBITDA", AsInt),
    ("PERatio", AsFloat), ("PEGRatio", AsFloat), ("BookValue", AsFloat), ("DividendPerShare", AsFloat),
    ("DividendYield", AsFloat), ("EPS", AsFloat), ("RevenuePerShareTTM", AsFloat), ("ProfitMargin", AsFloat),
    ("OperatingMarginTTM", AsFloat), ("ReturnOnAssetsTTM", AsFloat), ("ReturnOnEquityTTM", AsFloat),
    ("RevenueTTM", AsInt), ("GrossProfitTTM", AsInt),
    ("DilutedEPSTTM", AsFloat), ("QuarterlyEarningsGrowthYOY", AsFloat), ("QuarterlyRevenueGrowthYOY", AsFloat),
    ("AnalystTargetPrice", AsFloat), ("TrailingPE", AsFloat), ("ForwardPE", AsFloat),
    ("PriceToSalesRatioTTM", AsFloat), ("PriceToBookRatio", AsFloat), ("EVToRevenue", AsFloat),
    ("EVToEBITDA", AsFloat), ("Beta", AsFloat), ("52WeekHigh", AsFloat), ("52WeekLow", AsFloat),
    ("50DayMovingAverage", AsFloat), ("200DayMovingAverage", AsFloat),
    ("SharesOutstanding", AsInt)]

  /** The ten descriptive columns, bound as they are. */
  function DescriptiveValues(asset: Payload): seq<Value> {
    [Get(asset, "Symbol"), Get(asset, "Name"), Get(asset, "Description"), Get(asset, "CIK"),
     Get(asset, "Exchange"), GetOr(asset, "Currency", VStr("USD")), Get(asset, "Country"),
     Get(asset, "Sector"), Get(asset, "Industry"), GetOr(asset, "AssetType", VStr("Stock"))]
  }

  function MetricValues(asset: Payload): (vs: seq<Value>)
    ensures |vs| == |MetricFields|
    ensures forall i :: 0 <= i < |vs| ==> CleanValue(Get(asset, MetricFields[i].0), MetricFields[i].1.Kind()) == Ok(vs[i])
  {
    seq(|MetricFields|, i requires 0 <= i < |MetricFields| => CleanValue(Get(asset, MetricFields[i].0), MetricFields[i].1.Kind()).value)
  }

  /** The `values` tuple of `insert_asset`. Only the two date conversions can raise, and
      either raises TypeError, so evaluation order does not matter for the outcome. */
  function BindAsset(asset: Payload): (r: Outcome<Row>)
    ensures r.Raised? <==> DateRaises(Get(asset, "DividendDate")) || DateRaises(Get(asset, "ExDividendDate"))
    ensures r.Raised? ==> r.exc == TypeError
    ensures r.Ok? ==> |r.value| == 43
  {
    match CleanValue(Get(asset, "DividendDate"), KDate)
    case Raised(e) => Raised(e)
    case Ok(dividend) =>
      match CleanValue(Get(asset, "ExDividendDate"), KDate)
      case Raised(e) => Raised(e)
      case Ok(exDividend) => Ok(DescriptiveValues(asset) + MetricValues(asset) + [dividend, exDividend])
  }

  /** `insert_asset` binds 43 values in column order: the symbol first, Currency
      defaulting to 'USD' and AssetType to 'Stock', the cleaned numbers, then the two
      cleaned dates. */
  lemma BindAssetShape(asset: Payload)
    ensures BindAsset(asset).Ok? ==>
      var row := BindAsset(asset).value;
      && |row| == 43
      && row[0] == Get(asset, "Symbol")
      && row[5] == GetOr(asset, "Currency", VStr("USD"))
      && row[9] == GetOr(asset, "AssetType", VStr("Stock"))
      && (forall i :: 0 <= i < 31 ==> CleanValue(Get(asset, MetricFields[i].0), MetricFields[i].1.Kind()) == Ok(row[10 + i]))
      && Ok(row[41]) == CleanValue(Get(asset, "DividendDate"), KDate)
      && Ok(row[42]) == CleanValue(Get(asset, "ExDividendDate"), KDate)
  {
    assert |MetricFields| == 31;
  }

  // ---------------------------------------------------------------------------
  // Tables as maps from key to row
  // ---------------------------------------------------------------------------

  datatype TableName = Assets | EconomicIndicators | MarketIndices | VolatilityData | SectorPerformance

  type Row = seq<Value>

  /** A table: the row stored under each key. */
  type Table = map<seq<Value>, Row>

  /** Number of columns each INSERT binds. */
  function Arity(name: TableName): nat {
    match name
    case Assets => 43
    case EconomicIndicators => 7
    case MarketIndices => 10
    case VolatilityData => 5
    case SectorPerformance => 6
  }

  /** Positions, among the bound columns, of each table's unique key: symbol;
      (indicator_code, date); (symbol, date); (underlying_symbol, volatility_type, date,
      volatility_period); (sector, date). */
  function KeyColumns(name: TableName): (ks: seq<nat>)
    ensures |ks| > 0 && forall i :: 0 <= i < |ks| ==> ks[i] < Arity(name)
  {
    match name
    case Assets => [0]
    case EconomicIndicators => [1, 2]
    case MarketIndices => [0, 1]
    case VolatilityData => [0, 1, 2, 4]
    case SectorPerformance => [0, 1]
  }

  function KeyOf(name: TableName, row: Row): (k: seq<Value>)
    requires |row| == Arity(name)
    ensures |k| == |KeyColumns(name)|
  {
    seq(|KeyColumns(name)|, i requires 0 <= i < |KeyColumns(name)| => row[KeyColumns(name)[i]])
  }

  /** Every stored row has the table's width and is stored under its own key. */
  predicate KeyedBy(t: Table, name: TableName) {
    forall k :: k in t ==> |t[k]| == Arity(name) && KeyOf(name, t[k]) == k
  }

  predicate WellShaped(rows: seq<Row>, name: TableName) {
    forall i :: 0 <= i < |rows| ==> |rows[i]| == Arity(name)
  }

  /** `INSERT OR REPLACE`: the row replaces whatever was stored under its key. */
  function Upsert(t: Table, name: TableName, row: Row): (r: Table)
    requires |row| == Arity(name)
    ensures KeyOf(name, row) in r && r[KeyOf(name, row)] == row
    ensures forall k :: k != KeyOf(name, row) ==> (k in r <==> k in t) && (k in t ==> r[k] == t[k])
  {
    t[KeyOf(name, row) := row]
  }

  /** An upsert keeps every row stored under its own key. */
  lemma UpsertKeyed(t: Table, name: TableName, row: Row)
    requires |row| == Arity(name) && KeyedBy(t, name)
    ensures KeyedBy(Upsert(t, name, row), name)
  {
  }

  /** The rows executed one after the other. */
  function UpsertAll(t: Table, name: TableName, rows: seq<Row>): Table
    requires WellShaped(rows, name)
  {
    if rows == [] then t else Upsert(UpsertAll(t, name, rows[..|rows| - 1]), name, rows[|rows| - 1])
  }

  /** Writing the same key twice keeps the second row only. */
  lemma SecondWriteWins(t: Table, name: TableName, first: Row, second: Row)
    requires |first| == Arity(name) && |second| == Arity(name) && KeyOf(name, first) == KeyOf(name, second)
    ensures Upsert(Upsert(t, name, first), name, second) == Upsert(t, name, second)
  {
  }

  lemma {:induction false} UpsertAllKeyed(t: Table, name: TableName, rows: seq<Row>)
    requires WellShaped(rows, name) && KeyedBy(t, name)
    ensures KeyedBy(UpsertAll(t, name, rows), name)
  {
    if rows != [] {
      UpsertAllKeyed(t, name, rows[..|rows| - 1]);
      UpsertKeyed(UpsertAll(t, name, rows[..|rows| - 1]), name, rows[|rows| - 1]);
    }
  }

  /** A key is present after the upserts when it was before or some row has it. */
  lemma {:induction false} UpsertAllHas(t: Table, name: TableName, rows: seq<Row>, k: seq<Value>)
    requires WellShaped(rows, name)
    ensures k in UpsertAll(t, name, rows) <==> k in t || exists i :: 0 <= i < |rows| && KeyOf(name, rows[i]) == k
  {
    if rows != [] {
      var n := |rows|;
      var prefix := rows[..n - 1];
      UpsertAllHas(t, name, prefix, k);
      assert forall i :: 0 <= i < n - 1 ==> prefix[i] == rows[i];
      if KeyOf(name, rows[n - 1]) != k && exists i :: 0 <= i < n && KeyOf(name, rows[i]) == k {
        var i :| 0 <= i < n && KeyOf(name, rows[i]) == k;
        assert KeyOf(name, prefix[i]) == k;
      }
    }
  }

  /** The row stored under a key is the last row with that key. */
  lemma {:induction false} UpsertAllLast(t: Table, name: TableName, rows: seq<Row>, k: seq<Value>, i: nat)
    requires WellShaped(rows, name) && i < |rows| && KeyOf(name, rows[i]) == k
    requires forall j :: i < j < |rows| ==> KeyOf(name, rows[j]) != k
    ensures k in UpsertAll(t, name, rows) && UpsertAll(t, name, rows)[k] == rows[i]
  {
    var n := |rows|;
    var prefix := rows[..n - 1];
    if i < n - 1 {
      assert forall j :: i < j < n - 1 ==> prefix[j] == rows[j];
      assert prefix[i] == rows[i];
      UpsertAllLast(t, name, prefix, k, i);
      var last := rows[n - 1];
      assert KeyOf(name, last) != k;
    }
  }

  /** A key no row has keeps its old row, or stays absent. */
  lemma {:induction false} UpsertAllUntouched(t: Table, name: TableName, rows: seq<Row>, k: seq<Value>)
    requires WellShaped(rows, name) && forall i :: 0 <= i < |rows| ==> KeyOf(name, rows[i]) != k
    ensures (k in UpsertAll(t, name, rows) <==> k in t) && (k in t ==> UpsertAll(t, name, rows)[k] == t[k])
  {
    if rows != [] {
      var n := |rows|;
      var prefix := rows[..n - 1];
      assert forall j :: 0 <= j < n - 1 ==> prefix[j] == rows[j];
      UpsertAllUntouched(t, name, prefix, k);
      assert KeyOf(name, rows[n - 1]) != k;
    }
  }

  /** What a sequence of upserts leaves under a key: the last row with that key, or the
      old row when no row has it. */
  lemma UpsertAllLookup(t: Table, name: TableName, rows: seq<Row>, k: seq<Value>)
    requires WellShaped(rows, name)
    ensures k in UpsertAll(t, name, rows) <==> k in t || exists i :: 0 <= i < |rows| && KeyOf(name, rows[i]) == k
    ensures forall i :: 0 <= i < |rows| && KeyOf(name, rows[i]) == k && (forall j :: i < j < |rows| ==> KeyOf(name, rows[j]) != k) ==>
      UpsertAll(t, name, rows)[k] == rows[i]
    ensures (forall i :: 0 <= i < |rows| ==> KeyOf(name, rows[i]) != k) && k in t ==> UpsertAll(t, name, rows)[k] == t[k]
  {
    UpsertAllHas(t, name, rows, k);
    forall i | 0 <= i < |rows| && KeyOf(name, rows[i]) == k && (forall j :: i < j < |rows| ==> KeyOf(name, rows[j]) != k)
      ensures UpsertAll(t, name, rows)[k] == rows[i]
    {
      UpsertAllLast(t, name, rows, k, i);
    }
    if forall i :: 0 <= i < |rows| ==> KeyOf(name, rows[i]) != k {
      UpsertAllUntouched(t, name, rows, k);
    }
  }

  /** Replaying the same upserts changes nothing. */
  lemma UpsertAllIdempotent(t: Table, name: TableName, rows: seq<Row>)
    requires WellShaped(rows, name)
    ensures UpsertAll(UpsertAll(t, name, rows), name, rows) == UpsertAll(t, name, rows)
  {
    var once := UpsertAll(t, name, rows);
    var twice := UpsertAll(once, name, rows);
    forall k
      ensures (k in twice <==> k in once) && (k in once ==> twice[k] == once[k])
    {
      UpsertAllLookup(t, name, rows, k);
      UpsertAllLookup(once, name, rows, k);
      if exists i :: 0 <= i < |rows| && KeyOf(name, rows[i]) == k {
        var i := LastWithKey(name, rows, k);
      }
    }
    assert twice.Keys == once.Keys;
  }

  /** The position of the last row with key k. */
  lemma LastWithKey(name: TableName, rows: seq<Row>, k: seq<Value>) returns (i: nat)
    requires WellShaped(rows, name)
    requires exists i :: 0 <= i < |rows| && KeyOf(name, rows[i]) == k
    ensures i < |rows| && KeyOf(name, rows[i]) == k
    ensures forall j :: i < j < |rows| ==> KeyOf(name, rows[j]) != k
  {
    i := |rows| - 1;
    while KeyOf(name, rows[i]) != k
      invariant 0 <= i < |rows|
      invariant forall j :: i < j < |rows| ==> KeyOf(name, rows[j]) != k
      invariant exists j :: 0 <= j <= i && KeyOf(name, rows[j]) == k
      decreases i
    {
      i := i - 1;
    }
  }

  // ---------------------------------------------------------------------------
  // Database state: what the connection sees and what has been committed
  // ---------------------------------------------------------------------------

  datatype Tables = Tables(assets: Table, indicators: Table, indices: Table, volatility: Table, sectors: Table) {

    function Get(name: TableName): Table {
      match name
      case Assets => assets
      case EconomicIndicators => indicators
      case MarketIndices => indices
      case VolatilityData => volatility
      case SectorPerformance => sectors
    }

    function Set(name: TableName, t: Table): (r: Tables)
      ensures r.Get(name) == t
      ensures forall other :: other != name ==> r.Get(other) == Get(other)
    {
      match name
      case Assets => this.(assets := t)
      case EconomicIndicators => this.(indicators := t)
      case MarketIndices => this.(indices := t)
      case VolatilityData => this.(volatility := t)
      case SectorPerformance => this.(sectors := t)
    }

    predicate Keyed() {
      forall name :: KeyedBy(Get(name), name)
    }
  }

  /** `pending` is what the connection reads (its own uncommitted writes included);
      `committed` is what survives the connection. */
  datatype DbState = DbState(pending: Tables, committed: Tables)

  /** The rows executed on one table and then committed. `fault` is the step at which the
      sqlite3 driver raises, if any: step i < |rows| is the i-th execute, step |rows| the
      commit. The error is swallowed; the rows executed before it stay pending. */
  function UpsertsEffect(st: DbState, name: TableName, rows: seq<Row>, fault: Option<nat>): (r: DbState)
    requires WellShaped(rows, name)
    ensures fault.Some? && fault.value <= |rows| ==>
      r.committed == st.committed && r.pending == st.pending.Set(name, UpsertAll(st.pending.Get(name), name, rows[..fault.value]))
    ensures !(fault.Some? && fault.value <= |rows|) ==>
      r.pending == r.committed == st.pending.Set(name, UpsertAll(st.pending.Get(name), name, rows))
  {
    if fault.Some? && fault.value <= |rows| then
      DbState(st.pending.Set(name, UpsertAll(st.pending.Get(name), name, rows[..fault.value])), st.committed)
    else
      var t := st.pending.Set(name, UpsertAll(st.pending.Get(name), name, rows));
      DbState(t, t)
  }

  /** Upserts keep both views keyed. */
  lemma UpsertsKeepKeyed(st: DbState, name: TableName, rows: seq<Row>, fault: Option<nat>)
    requires WellShaped(rows, name) && st.pending.Keyed() && st.committed.Keyed()
    ensures UpsertsEffect(st, name, rows, fault).pending.Keyed() && UpsertsEffect(st, name, rows, fault).committed.Keyed()
  {
    var k := if fault.Some? && fault.value <= |rows| then fault.value else |rows|;
    assert WellShaped(rows[..k], name);
    UpsertAllKeyed(st.pending.Get(name), name, rows[..k]);
    assert rows[..|rows|] == rows;
  }

  /** `insert_asset(asset)`: the values are bound (a TypeError escapes with nothing
      written), then executed and committed with sqlite3 errors swallowed. */
  function InsertAssetEffect(st: DbState, asset: Payload, fault: Option<nat>): (r: Outcome<DbState>)
    ensures r.Raised? <==> BindAsset(asset).Raised?
    ensures r.Raised? ==> r.exc == TypeError
  {
    match BindAsset(asset)
    case Raised(e) => Raised(e)
    case Ok(row) => Ok(UpsertsEffect(st, Assets, [row], fault))
  }

  /** Re-inserting an asset with the same symbol leaves one row, the second one, and no
      other asset changes. */
  lemma AssetReinsertLastWins(st: DbState, a1: Payload, a2: Payload)
    requires BindAsset(a1).Ok? && BindAsset(a2).Ok? && Get(a1, "Symbol") == Get(a2, "Symbol")
    ensures var mid := InsertAssetEffect(st, a1, None).value;
      var r := InsertAssetEffect(mid, a2, None).value;
      && r.committed == r.pending
      && r.pending.assets == Upsert(st.pending.assets, Assets, BindAsset(a2).value)
      && forall other :: other != Assets ==> r.pending.Get(other) == st.pending.Get(other)
  {
    BindAssetShape(a1);
    BindAssetShape(a2);
    var row1, row2 := BindAsset(a1).value, BindAsset(a2).value;
    assert KeyOf(Assets, row1) == [row1[0]] && KeyOf(Assets, row2) == [row2[0]];
    var none: seq<Row> := [];
    var t0 := st.pending.assets;
    assert UpsertAll(t0, Assets, [row1]) == Upsert(t0, Assets, row1) by {
      assert [row1][..0] == none;
    }
    var mid := InsertAssetEffect(st, a1, None).value;
    assert mid.pending == st.pending.Set(Assets, Upsert(t0, Assets, row1));
    assert UpsertAll(mid.pending.assets, Assets, [row2]) == Upsert(mid.pending.assets, Assets, row2) by {
      assert [row2][..0] == none;
    }
    SecondWriteWins(t0, Assets, row1, row2);
  }

  /** The end of a batch: the exception that escaped it, if any, and the state reached. */
  datatype BatchOutcome = BatchOutcome(escaped: Option<Exc>, state: DbState)

  /** `insert_assets_batch`: each asset in order, each insert committing its own row; an
      escaping TypeError ends the batch, and the assets inserted before it stay. */
  function AssetsBatchEffect(st: DbState, assets: seq<Payload>, faults: seq<Option<nat>>): (r: BatchOutcome)
    requires |faults| == |assets|
    decreases |assets|
    ensures r.escaped.Some? ==> r.escaped.value == TypeError && exists i :: 0 <= i < |assets| && BindAsset(assets[i]).Raised?
    ensures (forall i :: 0 <= i < |assets| ==> BindAsset(assets[i]).Ok?) ==> r.escaped.None?
  {
    if assets == [] then BatchOutcome(None, st)
    else
      match InsertAssetEffect(st, assets[0], faults[0])
      case Raised(e) => BatchOutcome(Some(e), st)
      case Ok(next) =>
        var r := AssetsBatchEffect(next, assets[1..], faults[1..]);
        assert r.escaped.Some? ==> exists i :: 1 <= i < |assets| && BindAsset(assets[i]).Raised? by {
          if r.escaped.Some? {
            var j :| 0 <= j < |assets| - 1 && BindAsset(assets[1..][j]).Raised?;
            assert assets[1..][j] == assets[j + 1];
          }
        }
        r
  }

  /** When asset i is the first whose binding raises, the batch ends with its TypeError in
      the state the assets before it left: each of those was inserted and committed. */
  lemma {:induction false} BatchStopsAtFirstFailure(st: DbState, assets: seq<Payload>, faults: seq<Option<nat>>, i: nat)
    requires |faults| == |assets| && i < |assets| && BindAsset(assets[i]).Raised?
    requires forall j :: 0 <= j < i ==> BindAsset(assets[j]).Ok?
    ensures AssetsBatchEffect(st, assets[..i], faults[..i]).escaped.None?
    ensures AssetsBatchEffect(st, assets, faults) ==
      BatchOutcome(Some(TypeError), AssetsBatchEffect(st, assets[..i], faults[..i]).state)
    decreases i
  {
    if i > 0 {
      var next := InsertAssetEffect(st, assets[0], faults[0]).value;
      assert assets[1..][i - 1] == assets[i];
      forall j | 0 <= j < i - 1 ensures BindAsset(assets[1..][j]).Ok? {
        assert assets[1..][j] == assets[j + 1];
      }
      BatchStopsAtFirstFailure(next, assets[1..], faults[1..], i - 1);
      assert assets[..i][1..] == assets[1..][..i - 1] && faults[..i][1..] == faults[1..][..i - 1];
      assert assets[..i][0] == assets[0] && faults[..i][0] == faults[0];
    }
  }

  // ---------------------------------------------------------------------------
  // Record binding for the list inserts
  // ---------------------------------------------------------------------------

  /** `record.get(column)` for each bound column, in order. */
  function BindRecord(record: Payload, columns: seq<string>): (row: Row)
    ensures |row| == |columns| && forall j :: 0 <= j < |columns| ==> row[j] == Get(record, columns[j])
  {
    seq(|columns|, j requires 0 <= j < |columns| => Get(record, columns[j]))
  }

  function BindRecords(records: seq<Payload>, columns: seq<string>): (rows: seq<Row>)
    ensures |rows| == |records| && forall i :: 0 <= i < |records| ==> rows[i] == BindRecord(records[i], columns)
  {
    seq(|records|, i requires 0 <= i < |records| => BindRecord(records[i], columns))
  }

  const IndicatorColumns: seq<string> := ["indicator_name", "indicator_code", "date", "value", "unit", "frequency", "source"]
  const IndexColumns: seq<string> := ["symbol", "date", "index_value", "daily_return", "volume", "total_market_cap",
                                      "pe_ratio", "dividend_yield", "price_to_book", "constituent_count"]
  const VolatilityColumns: seq<string> := ["underlying_symbol", "volatility_type", "date", "volatility_value", "volatility_period"]

  lemma BoundWidths(records: seq<Payload>)
    ensures WellShaped(BindRecords(records, IndicatorColumns), EconomicIndicators)
    ensures WellShaped(BindRecords(records, IndexColumns), MarketIndices)
    ensures WellShaped(BindRecords(records, VolatilityColumns), VolatilityData)
  {
  }

  // ---------------------------------------------------------------------------
  // The database object
  // ---------------------------------------------------------------------------

  class FinancialDatabase {
    var pending: Tables
    var committed: Tables

    ghost predicate Valid()
      reads this
    {
      pending.Keyed() && committed.Keyed()
    }

    function State(): DbState
      reads this
    {
      DbState(pending, committed)
    }

    /** An open connection to a database file holding `initial`. */
    constructor (initial: Tables)
      requires initial.Keyed()
      ensures Valid() && pending == initial && committed == initial
    {
      pending, committed := initial, initial;
    }

    /** `cursor.execute` of each row in order, then `connection.commit()`, inside
        `try ... except sqlite3.Error`. */
    method ExecuteUpserts(name: TableName, rows: seq<Row>, fault: Option<nat>)
      requires Valid() && WellShaped(rows, name)
      modifies this
      ensures Valid()
      ensures State() == UpsertsEffect(old(State()), name, rows, fault)
    {
      UpsertsKeepKeyed(State(), name, rows, fault);
      ghost var start := pending;
      for i := 0 to |rows|
        invariant pending == start.Set(name, UpsertAll(start.Get(name), name, rows[..i]))
        invariant committed == old(committed)
        invariant fault.Some? ==> fault.value >= i
      {
        if fault == Some(i) {
          return;
        }
        assert rows[..i + 1][..i] == rows[..i];
        pending := pending.Set(name, Upsert(pending.Get(name), name, rows[i]));
      }
      assert rows[..|rows|] == rows;
      if fault == Some(|rows|) {
        return;
      }
      committed := pending;
    }

    /** `insert_asset`; the TypeError of a dividend date that is not a str escapes, every
        sqlite3 error is swallowed. */
    method InsertAsset(asset: Payload, fault: Option<nat>) returns (escaped: Option<Exc>)
      requires Valid()
      modifies this
      ensures Valid()
      ensures InsertAssetEffect(old(State()), asset, fault).Ok? ==>
        escaped == None && State() == InsertAssetEffect(old(State()), asset, fault).value
      ensures InsertAssetEffect(old(State()), asset, fault).Raised? ==>
        escaped == Some(TypeError) && State() == old(State())
    {
      var bound := BindAsset(asset);
      if bound.Raised? {
        return Some(bound.exc);
      }
      BindAssetShape(asset);
      ExecuteUpserts(Assets, [bound.value], fault);
      escaped := None;
    }

    /** `insert_assets_batch` */
    method InsertAssetsBatch(assets: seq<Payload>, faults: seq<Option<nat>>) returns (escaped: Option<Exc>)
      requires Valid() && |faults| == |assets|
      modifies this
      ensures Valid()
      ensures BatchOutcome(escaped, State()) == AssetsBatchEffect(old(State()), assets, faults)
    {
      for i := 0 to |assets|
        invariant Valid()
        invariant AssetsBatchEffect(old(State()), assets, faults) == AssetsBatchEffect(State(), assets[i..], faults[i..])
      {
        assert assets[i..][1..] == assets[i + 1..] && faults[i..][1..] == faults[i + 1..];
        escaped := InsertAsset(assets[i], faults[i]);
        if escaped.Some? {
          return;
        }
      }
      escaped := None;
    }

    /** `insert_economic_indicators` */
    method InsertEconomicIndicators(records: seq<Payload>, fault: Option<nat>)
      requires Valid()
      modifies this
      ensures Valid()
      ensures State() == UpsertsEffect(old(State()), EconomicIndicators, BindRecords(records, IndicatorColumns), fault)
    {
      BoundWidths(records);
      ExecuteUpserts(EconomicIndicators, BindRecords(records, IndicatorColumns), fault);
    }

    /** `insert_market_indices` */
    method InsertMarketIndices(records: seq<Payload>, fault: Option<nat>)
      requires Valid()
      modifies this
      ensures Valid()
      ensures State() == UpsertsEffect(old(State()), MarketIndices, BindRecords(records, IndexColumns), fault)
    {
      BoundWidths(records);
      ExecuteUpserts(MarketIndices, BindRecords(records, IndexColumns), fault);
    }

    /** `insert_volatility_data` */
    method InsertVolatilityData(records: seq<Payload>, fault: Option<nat>)
      requires Valid()
      modifies this
      ensures Valid()
      ensures State() == UpsertsEffect(old(State()), VolatilityData, BindRecords(records, VolatilityColumns), fault)
    {
      BoundWidths(records);
      ExecuteUpserts(VolatilityData, BindRecords(records, VolatilityColumns), fault);
    }

    /** A full scan of `assets` as the connection sees it, in the order SQLite returns
        the rows (left unspecified). */
    method ScanAssets() returns (rows: seq<Row>)
      requires Valid()
      ensures Enumerates(rows, pending.assets)
    {
      var left := pending.assets.Keys;
      rows := [];
      while left != {}
        invariant left <= pending.assets.Keys
        invariant forall i :: 0 <= i < |rows| ==> |rows[i]| == 43 && KeyOf(Assets, rows[i]) in pending.assets - left
        invariant forall i :: 0 <= i < |rows| ==> pending.assets[KeyOf(Assets, rows[i])] == rows[i]
        invariant forall i, j :: 0 <= i < j < |rows| ==> KeyOf(Assets, rows[i]) != KeyOf(Assets, rows[j])
        invariant |rows| + |left| == |pending.assets.Keys|
        decreases left
      {
        var k :| k in left;
        assert pending.Keyed();
        assert KeyedBy(pending.Get(Assets), Assets);
        rows := rows + [pending.assets[k]];
        left := left - {k};
      }
    }
  }

  /** `rows` lists every row of `t` once. */
  predicate Enumerates(rows: seq<Row>, t: Table) {
    && |rows| == |t.Keys|
    && (forall i :: 0 <= i < |rows| ==> |rows[i]| == 43 && KeyOf(Assets, rows[i]) in t && t[KeyOf(Assets, rows[i])] == rows[i])
    && (forall i, j :: 0 <= i < j < |rows| ==> KeyOf(Assets, rows[i]) != KeyOf(Assets, rows[j]))
  }

  // ---------------------------------------------------------------------------
  // insert_daily_prices: column preparation
  // ---------------------------------------------------------------------------

  function LowerChar(c: char): char {
    if 'A' <= c <= 'Z' then (c as int - 'A' as int + 'a' as int) as char else c
  }

  /** `s.lower()` on ASCII letters. */
  function Lower(s: string): (r: string)
    ensures |r| == |s|
  {
    if s == [] then [] else [LowerChar(s[0])] + Lower(s[1..])
  }

  /** `part in s` for strings. */
  predicate Contains(s: string, part: string)
    decreases |s|
  {
    (|part| <= |s| && s[..|part|] == part) || (|s| > 0 && Contains(s[1..], part))
  }

  /** `df.index.name == 'Date' or 'date' in str(df.index.name).lower()`; an unnamed index
      prints as 'None', which does not contain 'date'. */
  predicate DateIndexed(f: Frame) {
    f.indexName.Some? && (f.indexName.value == "Date" || Contains(Lower(f.indexName.value), "date"))
  }

  const DailyPriceColumns: map<string, string> := map[
    "Open" := "open_price", "High" := "high_price", "Low" := "low_price", "Close" := "close_price",
    "Adj Close" := "adjusted_close", "Volume" := "volume"]

  const RequiredPriceColumns: seq<string> := ["symbol", "date", "open_price", "high_price", "low_price", "close_price", "volume"]

  /** `[col for col in required if col not in df.columns]` */
  function MissingColumns(f: Frame, required: seq<string>): (missing: seq<string>)
    ensures forall c :: c in missing <==> c in required && !f.Has(c)
    ensures |missing| <= |required|
  {
    if required == [] then []
    else (if f.Has(required[0]) then [] else [required[0]]) + MissingColumns(f, required[1..])
  }

  lemma {:induction false} NoneMissing(f: Frame, required: seq<string>)
    requires forall c :: c in required ==> f.Has(c)
    ensures MissingColumns(f, required) == []
  {
    if required != [] {
      assert required[0] in required;
      NoneMissing(f, required[1..]);
    }
  }

  /** Step 1: `if symbol and 'symbol' not in df.columns: df['symbol'] = symbol`. */
  function TagSymbol(prices: Frame, symbol: Value): (r: Frame)
    ensures r.indexName == prices.indexName && r.index == prices.index
    ensures Truthy(symbol) || prices.Has("symbol") ==> r.Has("symbol")
    ensures prices.Has("symbol") || !Truthy(symbol) ==> r == prices
    ensures !prices.Has("symbol") && Truthy(symbol) ==> r.columns == prices.columns + [Column("symbol", Fill(symbol, prices.Rows()))]
  {
    if Truthy(symbol) && !prices.Has("symbol") then WithCells(prices, "symbol", Fill(symbol, prices.Rows())) else prices
  }

  /** Step 2: a date index becomes the 'date' column; ValueError when `reset_index` does. */
  function FlattenDateIndex(f: Frame): (r: Outcome<Frame>)
    ensures !DateIndexed(f) ==> r == Ok(f)
    ensures r.Raised? ==> DateIndexed(f)
  {
    if DateIndexed(f) then
      match ResetIndexed(f)
      case Raised(e) => Raised(e)
      case Ok(g) => Ok(if g.Has("Date") then Renamed(g, map["Date" := "date"]) else g)
    else Ok(f)
  }

  lemma FlattenKeeps(f: Frame, c: string)
    requires f.Has(c) && c != "Date" && FlattenDateIndex(f).Ok?
    ensures FlattenDateIndex(f).value.Has(c)
  {
    if DateIndexed(f) {
      var g := ResetIndexed(f).value;
      ResetKeeps(f, c);
      if g.Has("Date") {
        RenamedKeeps(g, map["Date" := "date"], c);
      }
    }
  }

  /** The frame `insert_daily_prices` would write and the required columns it finds missing. */
  datatype Prepared = Prepared(frame: Frame, missing: seq<string>)

  /** Steps 1 to 3 of `insert_daily_prices` and its required-column check; Raised stands
      for the exception its `except Exception` swallows. */
  function PrepareDailyPrices(prices: Frame, symbol: Value): (r: Outcome<Prepared>)
    ensures r.Ok? ==> forall c :: c in r.value.missing <==> c in RequiredPriceColumns && !r.value.frame.Has(c)
    ensures r.Raised? ==> DateIndexed(prices)
  {
    match FlattenDateIndex(TagSymbol(prices, symbol))
    case Raised(e) => Raised(e)
    case Ok(g) =>
      var renamed := Renamed(g, DailyPriceColumns);
      Ok(Prepared(renamed, MissingColumns(renamed, RequiredPriceColumns)))
  }

  /** A symbol column is present after preparation when the caller passed a symbol or
      the frame had one; an existing one is never overwritten. */
  lemma PreparedHasSymbol(prices: Frame, symbol: Value)
    requires PrepareDailyPrices(prices, symbol).Ok?
    requires Truthy(symbol) || prices.Has("symbol")
    ensures PrepareDailyPrices(prices, symbol).value.frame.Has("symbol")
    ensures "symbol" !in PrepareDailyPrices(prices, symbol).value.missing
  {
    var tagged := TagSymbol(prices, symbol);
    var g := FlattenDateIndex(tagged).value;
    assert g.Has("symbol") by {
      FlattenKeeps(tagged, "symbol");
    }
    assert Renamed(g, DailyPriceColumns).Has("symbol") by {
      assert "symbol" !in DailyPriceColumns;
      RenamedKeeps(g, DailyPriceColumns, "symbol");
    }
  }

  /** A frame without a date index that already has every required column, as the price
      fetch produces it, passes the check: nothing is missing. */
  lemma ReshapedPricesComplete(f: Frame, symbol: Value)
    requires f.indexName == None
    requires forall c :: c in RequiredPriceColumns ==> f.Has(c)
    ensures PrepareDailyPrices(f, symbol).Ok?
    ensures PrepareDailyPrices(f, symbol).value.missing == []
  {
    assert TagSymbol(f, symbol) == f;
    var renamed := Renamed(f, DailyPriceColumns);
    forall c | c in RequiredPriceColumns ensures renamed.Has(c) {
      RenamedKeeps(f, DailyPriceColumns, c);
    }
    NoneMissing(renamed, RequiredPriceColumns);
  }
}
