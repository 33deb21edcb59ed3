/** The orchestrator (data_setup/pipelines/data_collection_pipeline.py): one asset at a
    time, each collected from both providers and written through the database, with
    volatility for the assets that succeeded, then the economic indicators and the
    sector figures. Each step is specified by a function of the database state before
    it and the provider answers it receives; the methods are proved against them. */
module Pipeline {
  import opened Scalars
  import opened Frames
  import opened DataCollection
  import opened Database
  import opened AssetMapping
  import opened SectorAggregation

  /** What the outside world does while one asset is processed: the provider answers,
      the rolling deviations of the volatility frame (numeric work that is not
      modelled), and the step at which the sqlite3 driver fails in each insert. */
  datatype AssetFeed = AssetFeed(
    overview: Reply<Payload>, info: Reply<Payload>, prices: Reply<Frame>, assetFault: Option<nat>,
    volatilityPrices: Reply<Frame>, sigma: seq<Option<real>>, volatilityFault: Option<nat>)
  {
    /** Every frame pandas hands over has one cell per row in each column. */
    predicate Valid() {
      volatilityPrices.Answered? ==> volatilityPrices.body.WellFormed()
    }
  }

  /** The result of one step: the exception that escapes it, the calls it made, the
      database state after it. */
  datatype Effect = Effect(escaped: Option<Exc>, events: seq<Event>, state: DbState)

  /** `collect_and_insert_asset`'s result: its step and the flag it returns. */
  datatype AssetResult = AssetResult(step: Effect, success: bool)

  /** Executing and committing a list of rows only when there is one. */
  function InsertIfAny(st: DbState, name: TableName, rows: seq<Row>, fault: Option<nat>): (r: DbState)
    requires WellShaped(rows, name)
    ensures rows == [] ==> r == st
  {
    if rows == [] then st else UpsertsEffect(st, name, rows, fault)
  }

  // ---------------------------------------------------------------------------
  // What one item's fetches yield
  // ---------------------------------------------------------------------------

  /** The price frame a fetch yields. */
  function PriceFrame(symbol: string, reply: Reply<Frame>): Option<Frame> {
    if reply.Answered? then ReshapedHistory(reply.body, symbol) else None
  }

  /** The window `collect_and_insert_volatility_data` asks for. */
  const VolatilityWindow: int := 30

  /** One volatility record; `row['date'].strftime` needs a date. */
  function VolatilityRecord(row: VolRow): Payload
    requires row.date.VDate?
  {
    map["underlying_symbol" := row.symbol, "volatility_type" := VStr(row.volType),
        "date" := VStr(Strftime(row.date.d)), "volatility_value" := VReal(row.value),
        "volatility_period" := VInt(row.period)]
  }

  /** The records of a volatility frame; a date cell that is not a date makes
      `strftime` raise AttributeError, which nothing catches. */
  function VolatilityRecords(rows: seq<VolRow>): (r: Outcome<seq<Payload>>)
    ensures r.Raised? <==> exists i :: 0 <= i < |rows| && !rows[i].date.VDate?
    ensures r.Raised? ==> r.exc == AttributeError
    ensures r.Ok? ==> |r.value| == |rows| && forall i :: 0 <= i < |rows| ==> r.value[i] == VolatilityRecord(rows[i])
  {
    if forall i :: 0 <= i < |rows| ==> rows[i].date.VDate? then
      Ok(seq(|rows|, i requires 0 <= i < |rows| => VolatilityRecord(rows[i])))
    else Raised(AttributeError)
  }

  /** The volatility rows of the one-year history, or None when the fetch gave no frame. */
  function VolatilityRows(symbol: string, feed: AssetFeed): Option<seq<VolRow>>
    requires feed.Valid()
  {
    var frame := PriceFrame(symbol, feed.volatilityPrices);
    if frame.None? then None else Some(RealizedVolatility(frame.value, VolatilityWindow, feed.sigma))
  }

  /** The rows `insert_volatility_data` binds, or the exception building the records
      raises; None when there is no frame. */
  function VolatilityOutcome(symbol: string, feed: AssetFeed): (r: Option<Outcome<seq<Row>>>)
    requires feed.Valid()
    ensures r.Some? && r.value.Ok? ==> WellShaped(r.value.value, VolatilityData)
  {
    match VolatilityRows(symbol, feed)
    case None => None
    case Some(rows) =>
      match VolatilityRecords(rows)
      case Raised(e) => Some(Raised(e))
      case Ok(records) =>
        BoundWidths(records);
        Some(Ok(BindRecords(records, VolatilityColumns)))
  }

  /** What the fetches of one item yield, before anything is written: the asset
      dictionary (or the exception building it raises) and the row `insert_asset` binds
      from it (None when binding raises), the overview and info calls, whether the
      two-year history gave a frame, the volatility rows, and the steps at which the
      driver fails in each insert. */
  datatype Collected = Collected(
    symbol: string, asset: Outcome<Payload>, row: Option<Row>, lookups: seq<Event>, priced: bool,
    assetFault: Option<nat>, volatility: Option<Outcome<seq<Row>>>, volatilityFault: Option<nat>)
  {
    /** The rows have the widths of their tables. */
    predicate Shaped() {
      && (row.Some? ==> |row.value| == Arity(Assets))
      && (volatility.Some? && volatility.value.Ok? ==> WellShaped(volatility.value.value, VolatilityData))
    }
  }

  function Collect(c: FinancialDataCollector, symbol: string, assetType: string, feed: AssetFeed): (x: Collected)
    requires feed.Valid()
    ensures x.Shaped()
    ensures x.symbol == symbol && x.assetFault == feed.assetFault && x.volatilityFault == feed.volatilityFault
    ensures x.lookups == GetAssetOverview(c, symbol, feed.overview).events + [Call(Info(symbol))]
    ensures x.asset.Raised? ==> x.asset.exc == TypeError
    ensures x.asset.Ok? ==> (x.row.Some? <==> BindAsset(x.asset.value).Ok?)
    ensures x.asset.Ok? && x.row.Some? ==> x.row.value == BindAsset(x.asset.value).value
  {
    var overview := GetAssetOverview(c, symbol, feed.overview);
    var info := GetAssetInfo(symbol, feed.info);
    var asset := SelectAsset(symbol, assetType, overview.value, info.value);
    var row := if asset.Ok? && BindAsset(asset.value).Ok? then Some(BindAsset(asset.value).value) else None;
    Collected(symbol, asset, row, overview.events + info.events, PriceFrame(symbol, feed.prices).Some?,
              feed.assetFault, VolatilityOutcome(symbol, feed), feed.volatilityFault)
  }

  // ---------------------------------------------------------------------------
  // collect_and_insert_asset
  // ---------------------------------------------------------------------------

  /** `collect_and_insert_asset`: the TypeError of a dictionary that cannot be built
      escapes; otherwise the row is written when it binds (sqlite3 errors are swallowed,
      a TypeError from binding is caught and logged), the two-year history is fetched,
      and the step succeeds when either the insert or the fetch did. */
  function AssetStep(st: DbState, x: Collected): (r: AssetResult)
    requires x.Shaped()
    ensures r.step.escaped.Some? <==> x.asset.Raised?
    ensures r.step.escaped.Some? ==> r.step.escaped.value == x.asset.exc && r.step.state == st && !r.success
  {
    match x.asset
    case Raised(e) => AssetResult(Effect(Some(e), x.lookups, st), false)
    case Ok(_) =>
      AssetResult(Effect(None, x.lookups + [Call(History(x.symbol, "2y"))],
                         if x.row.Some? then UpsertsEffect(st, Assets, [x.row.value], x.assetFault) else st),
                  x.row.Some? || x.priced)
  }

  // ---------------------------------------------------------------------------
  // collect_and_insert_volatility_data
  // ---------------------------------------------------------------------------

  /** `collect_and_insert_volatility_data` given what its fetch yields: the AttributeError
      of a bad date escapes with nothing written; rows are written when there are any. */
  function VolatilityStep(st: DbState, symbol: string, outcome: Option<Outcome<seq<Row>>>, fault: Option<nat>): (r: Effect)
    requires outcome.Some? && outcome.value.Ok? ==> WellShaped(outcome.value.value, VolatilityData)
    ensures r.events == [Call(History(symbol, "1y"))]
    ensures r.escaped.Some? <==> outcome.Some? && outcome.value.Raised?
    ensures r.escaped.Some? ==> r.escaped == Some(outcome.value.exc) && r.state == st
    ensures (outcome.None? || outcome == Some(Ok([]))) ==> r == Effect(None, r.events, st)
  {
    var events := [Call(History(symbol, "1y"))];
    match outcome
    case None => Effect(None, events, st)
    case Some(Raised(e)) => Effect(Some(e), events, st)
    case Some(Ok(rows)) => Effect(None, events, InsertIfAny(st, VolatilityData, rows, fault))
  }

  // ---------------------------------------------------------------------------
  // collect_and_insert_economic_indicators
  // ---------------------------------------------------------------------------

  /** One economic indicator record; the value is never null, `dropna` has removed those rows. */
  function IndicatorRecord(seriesId: string, meta: IndicatorMeta, row: FredRow): Payload {
    map["indicator_name" := VStr(meta.name), "indicator_code" := VStr(seriesId),
        "date" := VStr(Strftime(row.date)), "value" := VReal(row.value),
        "unit" := VStr(meta.unit), "frequency" := VStr(meta.frequency), "source" := VStr(meta.source)]
  }

  function SeriesRecords(seriesId: string, meta: IndicatorMeta, rows: seq<FredRow>): (rs: seq<Payload>)
    ensures |rs| == |rows| && forall j :: 0 <= j < |rows| ==> rs[j] == IndicatorRecord(seriesId, meta, rows[j])
  {
    seq(|rows|, j requires 0 <= j < |rows| => IndicatorRecord(seriesId, meta, rows[j]))
  }

  /** The rows the FRED fetch of the i-th indicator yields (none when it gives None). */
  function SeriesRows(c: FinancialDataCollector, replies: seq<Reply<FredResponse>>, start: string, i: nat): seq<FredRow>
    requires |replies| == |FredIndicators| && i < |FredIndicators|
  {
    var fetched := GetFredEconomicData(c, FredIndicators[i].0, start, replies[i]);
    if fetched.value.Some? then fetched.value.value else []
  }

  /** The records of the first k indicators. */
  function IndicatorRecords(c: FinancialDataCollector, replies: seq<Reply<FredResponse>>, start: string, k: nat): seq<Payload>
    requires |replies| == |FredIndicators| && k <= |FredIndicators|
  {
    if k == 0 then []
    else IndicatorRecords(c, replies, start, k - 1)
         + SeriesRecords(FredIndicators[k - 1].0, FredIndicators[k - 1].1, SeriesRows(c, replies, start, k - 1))
  }

  /** The calls made for the first k indicators. */
  function IndicatorEvents(c: FinancialDataCollector, replies: seq<Reply<FredResponse>>, start: string, k: nat): seq<Event>
    requires |replies| == |FredIndicators| && k <= |FredIndicators|
  {
    if k == 0 then []
    else IndicatorEvents(c, replies, start, k - 1) + GetFredEconomicData(c, FredIndicators[k - 1].0, start, replies[k - 1]).events
  }

  /** The records and calls of one more indicator. */
  lemma IndicatorsStep(c: FinancialDataCollector, replies: seq<Reply<FredResponse>>, start: string, i: nat)
    requires |replies| == |FredIndicators| && i < |FredIndicators|
    ensures var fetched := GetFredEconomicData(c, FredIndicators[i].0, start, replies[i]);
      && IndicatorEvents(c, replies, start, i + 1) == IndicatorEvents(c, replies, start, i) + fetched.events
      && IndicatorRecords(c, replies, start, i + 1) == IndicatorRecords(c, replies, start, i)
           + (if fetched.value.Some? then SeriesRecords(FredIndicators[i].0, FredIndicators[i].1, fetched.value.value) else [])
  {
    var fetched := GetFredEconomicData(c, FredIndicators[i].0, start, replies[i]);
    if fetched.value.None? {
      assert SeriesRecords(FredIndicators[i].0, FredIndicators[i].1, []) == [];
    }
  }

  function EconomicStep(st: DbState, c: FinancialDataCollector, replies: seq<Reply<FredResponse>>, start: string, fault: Option<nat>): (r: Effect)
    requires |replies| == |FredIndicators|
    ensures r.escaped == None
  {
    var records := IndicatorRecords(c, replies, start, |FredIndicators|);
    BoundWidths(records);
    Effect(None, IndicatorEvents(c, replies, start, |FredIndicators|),
           InsertIfAny(st, EconomicIndicators, BindRecords(records, IndicatorColumns), fault))
  }

  /** Without a FRED key no indicator is fetched: no call, no record. */
  lemma {:induction false} NoFredKeyNothingFetched(c: FinancialDataCollector, replies: seq<Reply<FredResponse>>, start: string, k: nat)
    requires |replies| == |FredIndicators| && k <= |FredIndicators| && !Configured(c.fredApiKey)
    ensures IndicatorRecords(c, replies, start, k) == [] && IndicatorEvents(c, replies, start, k) == []
  {
    if k > 0 {
      NoFredKeyNothingFetched(c, replies, start, k - 1);
      assert SeriesRows(c, replies, start, k - 1) == [];
      assert SeriesRecords(FredIndicators[k - 1].0, FredIndicators[k - 1].1, []) == [];
    }
  }

  /** Without a FRED key the economic step does nothing at all. */
  lemma NoFredKeyNoEffect(st: DbState, c: FinancialDataCollector, replies: seq<Reply<FredResponse>>, start: string, fault: Option<nat>)
    requires |replies| == |FredIndicators| && !Configured(c.fredApiKey)
    ensures EconomicStep(st, c, replies, start, fault) == Effect(None, [], st)
  {
    NoFredKeyNothingFetched(c, replies, start, |FredIndicators|);
  }

  /** The date an indicator record stores is the observation's date, read back by `strptime`. */
  lemma IndicatorDateReadsBack(seriesId: string, meta: IndicatorMeta, row: FredRow)
    ensures var v := IndicatorRecord(seriesId, meta, row)["date"]; v.VStr? && Strptime(v.s) == Some(row.date)
  {
    StrptimeInvertsStrftime(row.date);
  }

  /** The date a volatility record stores is the row's date, read back by `strptime`. */
  lemma VolatilityDateReadsBack(row: VolRow)
    requires row.date.VDate?
    ensures var v := VolatilityRecord(row)["date"]; v.VStr? && Strptime(v.s) == Some(row.date.d)
  {
    StrptimeInvertsStrftime(row.date.d);
  }

  // ---------------------------------------------------------------------------
  // run_comprehensive_collection
  // ---------------------------------------------------------------------------

  /** One item of the run: the asset, then volatility when the asset succeeded and it was asked for. */
  function ProcessItem(st: DbState, x: Collected, includeVolatility: bool): (r: AssetResult)
    requires x.Shaped()
  {
    var asset := AssetStep(st, x);
    if asset.step.escaped.Some? || !asset.success || !includeVolatility then asset
    else
      var volatility := VolatilityStep(asset.step.state, x.symbol, x.volatility, x.volatilityFault);
      AssetResult(Effect(volatility.escaped, asset.step.events + volatility.events, volatility.state), true)
  }

  predicate FeedsValid(feeds: seq<AssetFeed>) {
    forall i :: 0 <= i < |feeds| ==> feeds[i].Valid()
  }

  /** What the fetches of every item yield. */
  function CollectAll(c: FinancialDataCollector, items: seq<(string, string)>, feeds: seq<AssetFeed>): (xs: seq<Collected>)
    requires |feeds| == |items| && FeedsValid(feeds)
    ensures |xs| == |items| && AllShaped(xs)
  {
    if items == [] then []
    else [Collect(c, items[0].0, items[0].1, feeds[0])] + CollectAll(c, items[1..], feeds[1..])
  }

  lemma {:induction false} CollectAllAt(c: FinancialDataCollector, items: seq<(string, string)>, feeds: seq<AssetFeed>, i: nat)
    requires |feeds| == |items| && FeedsValid(feeds) && i < |items|
    ensures CollectAll(c, items, feeds)[i] == Collect(c, items[i].0, items[i].1, feeds[i])
  {
    if i > 0 {
      assert items[1..][i - 1] == items[i] && feeds[1..][i - 1] == feeds[i];
      CollectAllAt(c, items[1..], feeds[1..], i - 1);
    }
  }

  /** `xs` holds, item by item, what the fetches of each asset yield. */
  predicate CollectedFrom(c: FinancialDataCollector, items: seq<(string, string)>, feeds: seq<AssetFeed>, xs: seq<Collected>)
    requires |feeds| == |items| && FeedsValid(feeds)
  {
    |xs| == |items| && forall j {:trigger items[j]} :: 0 <= j < |items| ==> xs[j] == Collect(c, items[j].0, items[j].1, feeds[j])
  }

  lemma CollectAllCollects(c: FinancialDataCollector, items: seq<(string, string)>, feeds: seq<AssetFeed>)
    requires |feeds| == |items| && FeedsValid(feeds)
    ensures CollectedFrom(c, items, feeds, CollectAll(c, items, feeds))
  {
    forall j | 0 <= j < |items|
      ensures CollectAll(c, items, feeds)[j] == Collect(c, items[j].0, items[j].1, feeds[j])
    {
      CollectAllAt(c, items, feeds, j);
    }
  }

  predicate AllShaped(xs: seq<Collected>) {
    forall i :: 0 <= i < |xs| ==> xs[i].Shaped()
  }

  /** Where the run stands after its first k items. */
  datatype RunResult = RunResult(escaped: Option<Exc>, successful: nat, trace: seq<Event>, state: DbState)

  function RunItems(st: DbState, xs: seq<Collected>, includeVolatility: bool, delay: real, k: nat): RunResult
    requires k <= |xs| && AllShaped(xs)
  {
    if k == 0 then RunResult(None, 0, [], st)
    else
      var prev := RunItems(st, xs, includeVolatility, delay, k - 1);
      if prev.escaped.Some? then prev
      else
        var r := ProcessItem(prev.state, xs[k - 1], includeVolatility);
        RunResult(r.step.escaped, prev.successful + (if r.success then 1 else 0),
                  prev.trace + r.step.events + (if r.step.escaped.None? then Gap(k - 1, |xs|, delay) else []),
                  r.step.state)
  }

  lemma RunItemsStep(st: DbState, xs: seq<Collected>, includeVolatility: bool, delay: real, i: nat,
                     prev: RunResult, r: AssetResult)
    requires i < |xs| && AllShaped(xs)
    requires RunItems(st, xs, includeVolatility, delay, i) == prev && prev.escaped.None?
    requires r == ProcessItem(prev.state, xs[i], includeVolatility)
    ensures RunItems(st, xs, includeVolatility, delay, i + 1) ==
      RunResult(r.step.escaped, prev.successful + (if r.success then 1 else 0),
                prev.trace + r.step.events + (if r.step.escaped.None? then Gap(i, |xs|, delay) else []),
                r.step.state)
  {
  }

  /** An escaping exception ends the run: later items change nothing. */
  lemma {:induction false} EscapeIsFinal(st: DbState, xs: seq<Collected>, includeVolatility: bool, delay: real, k: nat, n: nat)
    requires k <= n <= |xs| && AllShaped(xs)
    requires RunItems(st, xs, includeVolatility, delay, k).escaped.Some?
    ensures RunItems(st, xs, includeVolatility, delay, n) == RunItems(st, xs, includeVolatility, delay, k)
    decreases n
  {
    if n > k {
      EscapeIsFinal(st, xs, includeVolatility, delay, k, n - 1);
    }
  }

  // ---------------------------------------------------------------------------
  // The pipeline object
  // ---------------------------------------------------------------------------

  class FinancialDataPipeline {
    const db: FinancialDatabase
    const collector: FinancialDataCollector

    ghost predicate Valid()
      reads this, db
    {
      db.Valid()
    }

    /** A pipeline over a connected database holding `initial`. */
    constructor (initial: Tables, c: FinancialDataCollector)
      requires initial.Keyed()
      ensures Valid() && fresh(db) && collector == c && db.State() == DbState(initial, initial)
    {
      db := new FinancialDatabase(initial);
      collector := c;
    }

    /** `collect_and_insert_asset(symbol, asset_type)` */
    method CollectAndInsertAsset(symbol: string, assetType: string, feed: AssetFeed)
      returns (success: bool, escaped: Option<Exc>, events: seq<Event>)
      requires Valid() && feed.Valid()
      modifies db
      ensures Valid()
      ensures AssetResult(Effect(escaped, events, db.State()), success) == AssetStep(old(db.State()), Collect(collector, symbol, assetType, feed))
    {
      success := false;
      var overview := GetAssetOverview(collector, symbol, feed.overview);
      var info := GetAssetInfo(symbol, feed.info);
      events := overview.events + info.events;
      var asset := SelectAsset(symbol, assetType, overview.value, info.value);
      ghost var x := Collect(collector, symbol, assetType, feed);
      assert x.asset == asset && x.lookups == events;
      if asset.Raised? {
        return false, Some(asset.exc), events;
      }
      var raised := db.InsertAsset(asset.value, feed.assetFault);
      if raised.None? {
        success := true;
      }
      var price := GetPriceDataYfinance(symbol, "2y", feed.prices);
      events := events + price.events;
      if price.value.Some? {
        // insert_daily_prices swallows every exception; its write is not part of the model
        success := true;
      }
      escaped := None;
    }

    /** `collect_and_insert_volatility_data(symbol)` */
    method CollectAndInsertVolatilityData(symbol: string, feed: AssetFeed) returns (escaped: Option<Exc>, events: seq<Event>)
      requires Valid() && feed.Valid()
      modifies db
      ensures Valid()
      ensures Effect(escaped, events, db.State()) ==
        VolatilityStep(old(db.State()), symbol, VolatilityOutcome(symbol, feed), feed.volatilityFault)
    {
      var price := GetPriceDataYfinance(symbol, "1y", feed.volatilityPrices);
      events := price.events;
      escaped := None;
      if price.value.None? {
        assert VolatilityRows(symbol, feed) == None;
        return;
      }
      var rows := RealizedVolatility(price.value.value, VolatilityWindow, feed.sigma);
      assert VolatilityRows(symbol, feed) == Some(rows);
      var built := BuildVolatilityRecords(rows);
      if built.Raised? {
        return Some(built.exc), events;
      }
      var records := built.value;
      if records != [] {
        db.InsertVolatilityData(records, feed.volatilityFault);
      } else {
        assert BindRecords(records, VolatilityColumns) == [];
      }
    }

    /** The loop of `collect_and_insert_volatility_data` that turns each row into a
        record; it stops at the first date cell `strftime` cannot format. */
    static method BuildVolatilityRecords(rows: seq<VolRow>) returns (r: Outcome<seq<Payload>>)
      ensures r == VolatilityRecords(rows)
    {
      var records: seq<Payload> := [];
      for i := 0 to |rows|
        invariant |records| == i
        invariant forall j :: 0 <= j < i ==> rows[j].date.VDate? && records[j] == VolatilityRecord(rows[j])
      {
        if !rows[i].date.VDate? {
          return Raised(AttributeError);
        }
        records := records + [VolatilityRecord(rows[i])];
      }
      assert VolatilityRecords(rows).Ok?;
      assert VolatilityRecords(rows).value == records;
      return Ok(records);
    }

    /** `collect_and_insert_economic_indicators()`; `start` is the default start date
        the FRED fetch derives from the clock. */
    method CollectAndInsertEconomicIndicators(replies: seq<Reply<FredResponse>>, start: string, fault: Option<nat>)
      returns (events: seq<Event>)
      requires Valid() && |replies| == |FredIndicators|
      modifies db
      ensures Valid()
      ensures Effect(None, events, db.State()) == EconomicStep(old(db.State()), collector, replies, start, fault)
    {
      var records;
      records, events := FetchIndicators(collector, replies, start);
      BoundWidths(records);
      if records != [] {
        db.InsertEconomicIndicators(records, fault);
      } else {
        assert BindRecords(records, IndicatorColumns) == [];
      }
    }

    /** The outer loop of `collect_and_insert_economic_indicators`: one FRED fetch per
        indicator, in the order of the indicator table. */
    static method FetchIndicators(c: FinancialDataCollector, replies: seq<Reply<FredResponse>>, start: string)
      returns (records: seq<Payload>, events: seq<Event>)
      requires |replies| == |FredIndicators|
      ensures records == IndicatorRecords(c, replies, start, |FredIndicators|)
      ensures events == IndicatorEvents(c, replies, start, |FredIndicators|)
    {
      records, events := [], [];
      for i := 0 to |FredIndicators|
        invariant records == IndicatorRecords(c, replies, start, i)
        invariant events == IndicatorEvents(c, replies, start, i)
      {
        var seriesId, meta := FredIndicators[i].0, FredIndicators[i].1;
        var fetched := GetFredEconomicData(c, seriesId, start, replies[i]);
        IndicatorsStep(c, replies, start, i);
        events := events + fetched.events;
        if fetched.value.Some? {
          var series := BuildSeriesRecords(seriesId, meta, fetched.value.value);
          records := records + series;
        }
      }
    }

    /** The inner loop of `collect_and_insert_economic_indicators`: one record per
        observation of a series. */
    static method BuildSeriesRecords(seriesId: string, meta: IndicatorMeta, rows: seq<FredRow>) returns (records: seq<Payload>)
      ensures records == SeriesRecords(seriesId, meta, rows)
    {
      records := [];
      for j := 0 to |rows|
        invariant records == SeriesRecords(seriesId, meta, rows[..j])
      {
        records := records + [IndicatorRecord(seriesId, meta, rows[j])];
      }
      assert rows[..|rows|] == rows;
    }

    /** `update_sector_performance()`; `today` is the clock's date. `scanned` is the
        `assets` table as the queries read it, in the order SQLite returns it. */
    method UpdateSectorPerformance(today: Date, fault: Option<nat>) returns (scanned: seq<Row>)
      requires Valid()
      modifies db
      ensures Valid()
      ensures Enumerates(scanned, old(db.pending.assets))
      ensures db.State() == InsertIfAny(old(db.State()), SectorPerformance, SectorRows(scanned, today), fault)
    {
      scanned := db.ScanAssets();
      var sectors := DistinctSectors(scanned);
      if sectors == [] {
        return;
      }
      var records := BuildSectorRecords(scanned, sectors, today);
      db.ExecuteUpserts(SectorPerformance, records, fault);
    }

    /** The loop of `update_sector_performance` that builds one record per sector. */
    static method BuildSectorRecords(scanned: seq<Row>, sectors: seq<Value>, today: Date) returns (records: seq<Row>)
      requires AssetRows(scanned) && sectors == DistinctSectors(scanned)
      ensures records == SectorRows(scanned, today)
    {
      records := [];
      for i := 0 to |sectors|
        invariant |records| == i
        invariant forall j :: 0 <= j < i ==> records[j] == SectorRow(scanned, sectors[j], today)
      {
        records := records + [SectorRow(scanned, sectors[i], today)];
      }
      ghost var expected := SectorRows(scanned, today);
      assert records == expected;
    }

    /** One item of the loop: the asset, then its volatility when it succeeded and
        volatility is on. */
    method ProcessAsset(symbol: string, assetType: string, feed: AssetFeed, includeVolatility: bool)
      returns (success: bool, escaped: Option<Exc>, events: seq<Event>)
      requires Valid() && feed.Valid()
      modifies db
      ensures Valid()
      ensures AssetResult(Effect(escaped, events, db.State()), success) ==
        ProcessItem(old(db.State()), Collect(collector, symbol, assetType, feed), includeVolatility)
    {
      success, escaped, events := CollectAndInsertAsset(symbol, assetType, feed);
      if escaped.None? && success && includeVolatility {
        var volatilityEvents;
        escaped, volatilityEvents := CollectAndInsertVolatilityData(symbol, feed);
        events := events + volatilityEvents;
      }
    }

    /** Item i of the loop extends the run by exactly one step of its specification. */
    method CollectItem(items: seq<(string, string)>, feeds: seq<AssetFeed>, i: nat, includeVolatility: bool,
                       ghost xs: seq<Collected>, ghost st: DbState, ghost delay: real,
                       ghost successful: nat, ghost trace: seq<Event>)
      returns (success: bool, escaped: Option<Exc>, events: seq<Event>)
      requires Valid() && |feeds| == |items| && FeedsValid(feeds) && i < |items|
      requires CollectedFrom(collector, items, feeds, xs) && AllShaped(xs)
      requires RunItems(st, xs, includeVolatility, delay, i) == RunResult(None, successful, trace, db.State())
      modifies db
      ensures Valid()
      ensures RunItems(st, xs, includeVolatility, delay, i + 1) ==
        RunResult(escaped, successful + (if success then 1 else 0),
                  trace + events + (if escaped.None? then Gap(i, |items|, delay) else []), db.State())
    {
      ghost var prev := RunResult(None, successful, trace, db.State());
      success, escaped, events := ProcessAsset(items[i].0, items[i].1, feeds[i], includeVolatility);
      RunItemsStep(st, xs, includeVolatility, delay, i, prev, AssetResult(Effect(escaped, events, db.State()), success));
    }

    /** The loop of `run_comprehensive_collection`: each item in turn, with the pause
        between items; it ends early when an exception escapes an item. */
    method CollectItems(items: seq<(string, string)>, feeds: seq<AssetFeed>, includeVolatility: bool, delay: real,
                        ghost xs: seq<Collected>)
      returns (escaped: Option<Exc>, successful: nat, trace: seq<Event>)
      requires Valid() && |feeds| == |items| && FeedsValid(feeds)
      requires CollectedFrom(collector, items, feeds, xs) && AllShaped(xs)
      modifies db
      ensures Valid()
      ensures RunResult(escaped, successful, trace, db.State()) == RunItems(old(db.State()), xs, includeVolatility, delay, |items|)
    {
      escaped, successful, trace := None, 0, [];
      var i := 0;
      while i < |items| && escaped.None?
        invariant i <= |items| && Valid()
        invariant RunItems(old(db.State()), xs, includeVolatility, delay, i) == RunResult(escaped, successful, trace, db.State())
      {
        var success, events;
        success, escaped, events := CollectItem(items, feeds, i, includeVolatility, xs, old(db.State()), delay, successful, trace);
        trace := trace + events;
        if success {
          successful := successful + 1;
        }
        if escaped.None? && i < |items| - 1 && delay > 0.0 {
          trace := trace + [Sleep(delay)];
        }
        i := i + 1;
      }
      if escaped.Some? {
        EscapeIsFinal(old(db.State()), xs, includeVolatility, delay, i, |items|);
      }
    }

    /** What `run_comprehensive_collection` does after the asset loop: the economic
        indicators when asked for, then the sector figures. */
    method CollectIndicatorsAndSectors(includeEconomic: bool, fredReplies: seq<Reply<FredResponse>>, fredStart: string,
                                       fredFault: Option<nat>, today: Date, sectorFault: Option<nat>)
      returns (events: seq<Event>)
      requires Valid() && |fredReplies| == |FredIndicators|
      modifies db
      ensures Valid()
      ensures var economic := EconomicStep(old(db.State()), collector, fredReplies, fredStart, fredFault);
        var before := if includeEconomic then economic.state else old(db.State());
        && events == (if includeEconomic then economic.events else [])
        && exists scanned :: Enumerates(scanned, before.pending.assets)
             && db.State() == InsertIfAny(before, SectorPerformance, SectorRows(scanned, today), sectorFault)
    {
      events := [];
      if includeEconomic {
        events := CollectAndInsertEconomicIndicators(fredReplies, fredStart, fredFault);
      }
      var scanned := UpdateSectorPerformance(today, sectorFault);
    }

    /** `run_comprehensive_collection(symbols_and_types, include_economic_data,
        include_volatility, delay)`; `outcome` is the success count it logs, or the
        exception that escapes it. `get_data_summary` only reads and is not modelled. */
    method RunComprehensiveCollection(items: seq<(string, string)>, includeEconomic: bool, includeVolatility: bool,
                                      delay: real, feeds: seq<AssetFeed>,
                                      fredReplies: seq<Reply<FredResponse>>, fredStart: string, fredFault: Option<nat>,
                                      today: Date, sectorFault: Option<nat>)
      returns (outcome: Outcome<nat>, trace: seq<Event>)
      requires Valid() && |feeds| == |items| && FeedsValid(feeds) && |fredReplies| == |FredIndicators|
      modifies db
      ensures Valid()
      ensures var r := RunItems(old(db.State()), CollectAll(collector, items, feeds), includeVolatility, delay, |items|);
        r.escaped.Some? ==> outcome == Raised(r.escaped.value) && trace == r.trace && db.State() == r.state
      ensures var r := RunItems(old(db.State()), CollectAll(collector, items, feeds), includeVolatility, delay, |items|);
        var economic := EconomicStep(r.state, collector, fredReplies, fredStart, fredFault);
        var before := if includeEconomic then economic.state else r.state;
        r.escaped.None? ==>
          && outcome == Ok(r.successful)
          && trace == r.trace + (if includeEconomic then economic.events else [])
          && exists scanned :: Enumerates(scanned, before.pending.assets)
               && db.State() == InsertIfAny(before, SectorPerformance, SectorRows(scanned, today), sectorFault)
    {
      ghost var xs := CollectAll(collector, items, feeds);
      CollectAllCollects(collector, items, feeds);
      var escaped, successful;
      escaped, successful, trace := CollectItems(items, feeds, includeVolatility, delay, xs);
      if escaped.Some? {
        return Raised(escaped.value), trace;
      }
      outcome := Ok(successful);
      var events := CollectIndicatorsAndSectors(includeEconomic, fredReplies, fredStart, fredFault, today, sectorFault);
      trace := trace + events;
    }
  }
}
