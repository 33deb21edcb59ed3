# Financial markets data collection — a Dafny model

This project models the collection-and-reconciliation layer of the Financial-Markets-Analysis
data setup: how asset, price, economic-indicator, volatility and sector data are fetched from
Alpha Vantage, yfinance and FRED, turned into records, and written to the SQLite database.

- `scalars.dfy` (`Scalars`): the Python values the layer handles (str, int, float, date, None),
  their truth value, the sentinel strings, `float()`, `int(float())`, and
  `strptime`/`strftime` with the `%Y-%m-%d` format, including the proof that reading back a
  written date gives the same date.
- `frames.dfy` (`Frames`): the pandas DataFrame operations the price fetch uses
  (`reset_index`, `rename`, column assignment), as functions on frame values and as a
  `DataFrame` class whose methods change the frame in place.
- `collector.dfy` (`DataCollection`): `FinancialDataCollector` in
  `data_setup/components/data_collection_config.py`. It covers the overview acceptance test,
  the info fallback, the price-history reshaping, FRED row filtering, realized-volatility
  labelling, the rate-limited `batch_collect_with_delay`, and the constant symbol and
  indicator tables.
- `database.dfy` (`Database`): `FinancialDatabase` in `data_setup/components/database_config.py`.
  It covers `clean_value` and the 43-value asset binding. Each table is a map from its key
  to a row, and `INSERT OR REPLACE` is an upsert. The sqlite3 transaction is modelled for
  errors that end one statement only: executed rows stay pending until `commit`, and the
  driver error is swallowed. Also covered is
  the column preparation of `insert_daily_prices`.
- `mapping.dfy` (`AssetMapping`): `clean_numeric`, `clean_date` and the three asset mappers
  of `data_setup/pipelines/data_collection_pipeline.py`, and the whole-record choice between
  them.
- `sectors.dfy` (`SectorAggregation`): the sector figures of `update_sector_performance`
  under SQL's aggregate rules. `COUNT(*)` counts every row; `SUM` and `AVG` skip NULL; both
  are NULL over no number.
- `pipeline.dfy` (`Pipeline`): `FinancialDataPipeline`. Each step is specified by a function
  of the database state before it and of the provider answers it receives. The class methods
  are proved to produce exactly that step, and the loop of `run_comprehensive_collection` to
  follow the run specification item by item, ending early when an exception escapes.
- `runs.dfy` (`PipelineRuns`): what a run that nothing escaped has done: its calls in input
  order, its pauses, and its success count.

Provider answers, the clock's date, the sqlite3 driver's failures and the numeric rolling
deviations are parameters. Every provider call and every `time.sleep` is an event in a trace.

Two behaviours of the code are reproduced as written:
- Both providers are asked about every asset, even when the first one answers. Alpha Vantage
  is asked only when its API key is set; yfinance is always asked.
- A valid Alpha Vantage dividend or ex-dividend date makes the asset insert fail. The mapper
  has already turned the date into a `date` object, and `clean_value(..., 'date')` hands
  that object to `strptime`, which raises a TypeError. `collect_and_insert_asset` catches the
  TypeError; see `AssetMapping.AlphaVantageInsertFailsOnDates` and
  `AssetMapping.DividendDateExample`.

## Model

| member | source | states |
|---|---|---|
| Scalars.Truncate | data_setup/components/database_config.py:88 | `int()` of a float rounds toward zero: for x >= 0 the result is the floor, for x < 0 the ceiling, never moving away from zero |
| Scalars.Strptime | data_setup/components/database_config.py:94 | a date is produced only from a string of 8 to 10 characters that starts with four digits and a dash (the `%Y-%m-%d` pattern), the day being checked against the calendar |
| Scalars.Strftime | data_setup/pipelines/data_collection_pipeline.py:124 | `strftime('%Y-%m-%d')` always writes ten characters with dashes at positions 4 and 7 |
| Scalars.StrptimeInvertsStrftime | data_setup/pipelines/data_collection_pipeline.py:164 | reading back any date written by `strftime('%Y-%m-%d')` with `strptime` gives the same date |
| Frames.ResetIndexed | data_setup/components/data_collection_config.py:112 | `reset_index`: the index becomes the first column (named after the index), the new index is 0..n-1, every other column is kept; it fails exactly when the label is already a column |
| Frames.Renamed | data_setup/components/data_collection_config.py:115-124 | `rename(columns=...)` changes labels only as the mapping says and keeps index and cells |
| Frames.WithCells | data_setup/components/data_collection_config.py:127 | assigning a column replaces every column of that label, or appends one; other columns are untouched and the frame stays rectangular |
| Frames.SingleColumn | data_setup/components/data_collection_config.py:131 | `df[name]` as a single column succeeds exactly when one column has the label; a missing label is a KeyError |
| Frames.DataFrame.ResetIndex | data_setup/components/data_collection_config.py:112 | in place: the frame becomes `ResetIndexed` of its old value, or stays unchanged and reports the ValueError |
| Frames.DataFrame.Rename | data_setup/components/data_collection_config.py:115-124 | in place: the frame becomes its old value renamed by the mapping |
| Frames.DataFrame.SetScalar | data_setup/components/data_collection_config.py:127 | in place: the column is set to the value on every row |
| Frames.DataFrame.CopyColumn | data_setup/components/data_collection_config.py:130-131 | in place: the target column gets the source column's cells, or the frame is unchanged and the lookup's exception is reported |
| DataCollection.GetAssetOverview | data_setup/components/data_collection_config.py:46-71 | without a key: None and no call; otherwise one OVERVIEW call, and a payload is returned exactly when the call answered with an accepted payload (Symbol present, no Note, no Error Message); any failure gives None |
| DataCollection.GetAssetInfo | data_setup/components/data_collection_config.py:83-90 | one info call; the answer, or `{}` when the call failed |
| DataCollection.ReshapedHistory | data_setup/components/data_collection_config.py:107-138 | an empty history gives None; a result has the history's row count, a `symbol` column holding the symbol on every row, and an `adjusted_close` column, and stays rectangular |
| DataCollection.GetPriceDataYfinance | data_setup/components/data_collection_config.py:92-138 | one history call for the period; None when it failed, otherwise the in-place reshaping yields exactly `ReshapedHistory` of the answer |
| DataCollection.StandardHistoryReshaped | data_setup/components/data_collection_config.py:111-131 | a non-empty yfinance history indexed by Date is turned into exactly: date, the renamed price columns, symbol, and `adjusted_close` equal to the close |
| DataCollection.FredRows | data_setup/components/data_collection_config.py:170-186 | None without 'observations'; otherwise at most one row per observation, each tagged with the series id |
| DataCollection.KeptRowsSound | data_setup/components/data_collection_config.py:174-180 | every kept row comes from an observation with that date and a value that converts to that number |
| DataCollection.OneObservation | data_setup/components/data_collection_config.py:176-180 | each observation is kept or dropped on its own: it contributes a row exactly when it has a date and a numeric value |
| DataCollection.GetFredEconomicData | data_setup/components/data_collection_config.py:151-186 | without a key: None and no call; otherwise one observations call; rows exist only for an answered call with observations and carry the series id |
| DataCollection.Labelled | data_setup/components/data_collection_config.py:240-246 | every row is labelled 'Realized' with the window, comes from an input row at or after the window with that symbol, date and deviation, and has a symbol and a date; rows before the window are dropped |
| DataCollection.LabelledComplete | data_setup/components/data_collection_config.py:240-246 | `dropna()` keeps every row at or after the window that has a symbol, a date and a deviation |
| DataCollection.RealizedVolatility | data_setup/components/data_collection_config.py:218-253 | with a non-negative window and one `close_price`, `symbol` and `date` column, the rows are exactly `Labelled` of those columns; otherwise the exception inside the try gives no rows; every row is labelled 'Realized' with the window |
| DataCollection.ToDatetime | data_setup/components/data_collection_config.py:175 | a parsed date lies in the nanosecond Timestamp range, and every failure is a ValueError |
| DataCollection.BatchCollectWithDelay | data_setup/components/data_collection_config.py:255-295 | the loop produces the results dictionary, the success count over it, and the trace of one call per item with a pause after every item but the last |
| DataCollection.BatchResultsKeys | data_setup/components/data_collection_config.py:268-285 | every symbol gets a results entry, and no other key does |
| DataCollection.BatchLastOccurrenceWins | data_setup/components/data_collection_config.py:274-285 | a symbol's entry is its last call's result, None when that call raised |
| DataCollection.SuccessCountBound | data_setup/components/data_collection_config.py:292 | the success count is at most the number of distinct symbols, itself at most the number of items |
| DataCollection.DuplicateSymbolCountsOnce | data_setup/components/data_collection_config.py:276-292 | a symbol listed twice whose calls both succeed counts once |
| DataCollection.BatchSleeps | data_setup/components/data_collection_config.py:287-290 | the batch pauses k times after k items when delay > 0 and k is not the last, k - 1 times after all; never when delay <= 0 |
| DataCollection.BatchCallsInOrder | data_setup/components/data_collection_config.py:271-275 | the items are called once each, in input order |
| DataCollection.BatchEndsWithCall | data_setup/components/data_collection_config.py:287-290 | no pause follows the last item |
| DataCollection.RecommendedSymbolsShape | data_setup/components/data_collection_config.py:297-340 | 28 recommended symbols, each an ETF or a Stock |
| DataCollection.FredIndicatorsShape | data_setup/components/data_collection_config.py:342-398 | eight indicators with distinct series ids, all sourced from FRED |
| Database.CleanValue | data_setup/components/database_config.py:78-98 | sentinels give None for every kind; 'float' is `float()` or None; 'int' is the truncated `float()` or None; 'date' gives a date only for a string `strptime` accepts, and raises TypeError exactly for a truthy non-string |
| Database.CleanDateReadsIsoDates | data_setup/components/database_config.py:91-97 | every date written as YYYY-MM-DD cleans back to that date |
| Database.CleanIntTruncates | data_setup/components/database_config.py:86-90 | '-2.7' gives -2, 2.7 gives 2, -0.5 gives 0: truncation toward zero |
| Database.BindAsset | data_setup/components/database_config.py:114-158 | binding raises TypeError exactly when a dividend date is a truthy non-string; otherwise it gives 43 values |
| Database.BindAssetShape | data_setup/components/database_config.py:100-158 | the 43 values are the symbol first, Currency defaulting to 'USD', AssetType to 'Stock', the 31 cleaned numbers in column order and the two cleaned dates |
| Database.Upsert | data_setup/components/database_config.py:101 | `INSERT OR REPLACE`: the row is stored under its key and every other key is unchanged |
| Database.UpsertKeyed | data_setup/components/database_config.py:101 | an upsert keeps every row stored under its own key |
| Database.SecondWriteWins | data_setup/components/database_config.py:101 | writing the same key twice keeps only the second row |
| Database.UpsertAllKeyed | data_setup/components/database_config.py:252-261 | executing a list of rows keeps the table keyed |
| Database.UpsertAllLookup | data_setup/components/database_config.py:252-261 | after a list of upserts a key holds the last row with that key, or its old row when no row has it, and is present exactly when it was or some row has it |
| Database.UpsertAllIdempotent | data_setup/components/database_config.py:252-263 | replaying the same inserts leaves the table as it is |
| Database.UpsertsEffect | data_setup/components/database_config.py:251-267 | a driver error stops the loop with the rows executed so far pending and nothing committed; without one all rows are upserted and committed |
| Database.UpsertsKeepKeyed | data_setup/components/database_config.py:251-267 | both the pending and the committed tables stay keyed |
| Database.InsertAssetEffect | data_setup/components/database_config.py:63-167 | `insert_asset` fails exactly when binding fails, with TypeError; sqlite3 errors never escape |
| Database.AssetReinsertLastWins | data_setup/components/database_config.py:101-163 | inserting two assets with the same symbol leaves the second row committed, with every other table unchanged |
| Database.AssetsBatchEffect | data_setup/components/database_config.py:169-178 | the batch fails only with a TypeError from an asset whose binding fails, and succeeds when every asset binds |
| Database.BatchStopsAtFirstFailure | data_setup/components/database_config.py:161-177 | when asset i is the first whose binding raises, the TypeError escapes in the state the assets before it left, each of them inserted and committed |
| Database.BindRecord | data_setup/components/database_config.py:253-261 | one value per column, each the record's `get` of that column |
| Database.BoundWidths | data_setup/components/database_config.py:245-325 | indicator, market index and volatility records bind to 7, 10 and 5 values |
| Database.FinancialDatabase.constructor | data_setup/components/database_config.py:13-32 | the connection sees and has committed the initial tables |
| Database.FinancialDatabase.ExecuteUpserts | data_setup/components/database_config.py:251-267 | the loop of executes and the commit leave exactly `UpsertsEffect`, keeping the tables keyed |
| Database.FinancialDatabase.InsertAsset | data_setup/components/database_config.py:63-167 | the new state is `InsertAssetEffect`; the TypeError escapes with nothing changed |
| Database.FinancialDatabase.InsertAssetsBatch | data_setup/components/database_config.py:169-178 | the escaping exception and the new state are exactly `AssetsBatchEffect`, on both paths |
| Database.FinancialDatabase.InsertEconomicIndicators | data_setup/components/database_config.py:233-267 | the bound records are upserted and committed as `UpsertsEffect` says |
| Database.FinancialDatabase.InsertMarketIndices | data_setup/components/database_config.py:269-307 | the bound records are upserted and committed as `UpsertsEffect` says |
| Database.FinancialDatabase.InsertVolatilityData | data_setup/components/database_config.py:309-341 | the bound records are upserted and committed as `UpsertsEffect` says |
| Database.FinancialDatabase.ScanAssets | data_setup/pipelines/data_collection_pipeline.py:183-205 | the scan lists every row of `assets` once, each under its own key |
| Database.MissingColumns | data_setup/components/database_config.py:217-218 | a column is reported missing exactly when it is required and absent |
| Database.TagSymbol | data_setup/components/database_config.py:196-197 | the symbol column is added only when a symbol is given and the frame lacks one; an existing column is left as it is |
| Database.FlattenDateIndex | data_setup/components/database_config.py:200-203 | a frame without a date index is unchanged; only a date index can make the step raise |
| Database.PrepareDailyPrices | data_setup/components/database_config.py:191-222 | the missing list holds exactly the required columns absent after preparation; only a date index can raise |
| Database.PreparedHasSymbol | data_setup/components/database_config.py:196-222 | with a symbol given or present, the prepared frame has `symbol` and it is not reported missing |
| Database.ReshapedPricesComplete | data_setup/components/database_config.py:206-222 | a frame as the price fetch produces it (no date index, every required column) passes the check with nothing missing |
| AssetMapping.CleanNumeric | data_setup/pipelines/data_collection_pipeline.py:319-325 | sentinels give None, a value `float()` accepts gives that number, anything else None; never raises |
| AssetMapping.CleanDate | data_setup/pipelines/data_collection_pipeline.py:327-334 | falsy values and 'None' give None; a string gives the date `strptime` reads or None; a truthy non-string raises TypeError |
| AssetMapping.CleanDateReadsIso | data_setup/pipelines/data_collection_pipeline.py:327-334 | every date written as YYYY-MM-DD cleans to that date |
| AssetMapping.RecleanedNumber | data_setup/components/database_config.py:125-155 | a mapped number passes 'float' cleaning unchanged and is truncated by 'int' cleaning; None stays None |
| AssetMapping.RecleanedDate | data_setup/components/database_config.py:91-97 | a mapped date makes 'date' cleaning raise TypeError; None stays None |
| AssetMapping.MetricKeysMapped | data_setup/pipelines/data_collection_pipeline.py:347-377 | every number `insert_asset` reads is a key the Alpha Vantage mapper writes |
| AssetMapping.NumericFields | data_setup/pipelines/data_collection_pipeline.py:347-377 | the 31 numeric keys, each holding its `clean_numeric` value |
| AssetMapping.NumericKeysApart | data_setup/pipelines/data_collection_pipeline.py:336-380 | numeric, descriptive and date keys are pairwise disjoint |
| AssetMapping.MapAlphaVantage | data_setup/pipelines/data_collection_pipeline.py:316-380 | the mapper raises TypeError exactly when a dividend date is a truthy non-string; otherwise its keys are the descriptive, numeric and date keys |
| AssetMapping.AlphaVantageFields | data_setup/pipelines/data_collection_pipeline.py:336-379 | descriptive fields copied, Currency defaulting to 'USD' and AssetType to the requested type only when absent, numbers through `clean_numeric`, dates through `clean_date` |
| AssetMapping.AlphaVantageInsertFailsOnDates | data_setup/pipelines/data_collection_pipeline.py:378-379 | binding the Alpha Vantage record raises TypeError exactly when the mapper found a valid dividend or ex-dividend date |
| AssetMapping.DividendDateExample | data_setup/pipelines/data_collection_pipeline.py:378-379 | an overview with the dividend date '2024-05-16' maps fine and then fails to bind with TypeError |
| AssetMapping.MapYfinance | data_setup/pipelines/data_collection_pipeline.py:382-405 | the yfinance record has exactly twenty keys |
| AssetMapping.YfinanceFields | data_setup/pipelines/data_collection_pipeline.py:384-393 | Symbol and AssetType are the requested ones; Name falls back to the symbol, Currency to 'USD', Sector to '' |
| AssetMapping.YfinanceKeysShape | data_setup/pipelines/data_collection_pipeline.py:384-405 | the yfinance record has no CIK and no dividend dates |
| AssetMapping.MinimalAsset | data_setup/pipelines/data_collection_pipeline.py:407-414 | exactly Symbol, Name, AssetType and Currency, with Name the symbol and Currency 'USD' |
| AssetMapping.FallbackRecordsBind | data_setup/pipelines/data_collection_pipeline.py:382-414 | the yfinance and minimal records always bind, keyed by the requested symbol with the requested type |
| AssetMapping.ChosenSource | data_setup/pipelines/data_collection_pipeline.py:75-83 | Alpha Vantage exactly when the overview is a non-empty payload; yfinance exactly when it is not and the info is non-empty; the minimal stub otherwise |
| AssetMapping.SelectAsset | data_setup/pipelines/data_collection_pipeline.py:75-83 | only the Alpha Vantage branch can raise, with TypeError |
| AssetMapping.NoFieldMerge | data_setup/pipelines/data_collection_pipeline.py:75-83 | the record comes whole from one source: changing the other source's data changes nothing |
| AssetMapping.InsertFailsOnlyOnAlphaVantageDates | data_setup/pipelines/data_collection_pipeline.py:75-91 | when the asset insert raises, the record came from Alpha Vantage with a valid dividend or ex-dividend date |
| SectorAggregation.BoundMetricsAreNumbers | data_setup/components/database_config.py:125-155 | the numeric asset columns only hold numbers or NULL |
| SectorAggregation.InSector | data_setup/pipelines/data_collection_pipeline.py:202 | `WHERE sector = ?` yields asset rows of that sector only, no more than the table has |
| SectorAggregation.InSectorSelects | data_setup/pipelines/data_collection_pipeline.py:202 | the filter keeps exactly the table's rows of that sector |
| SectorAggregation.SqlSum | data_setup/pipelines/data_collection_pipeline.py:198 | SUM is NULL exactly when no value is a number, otherwise the total of the numbers |
| SectorAggregation.SqlAvg | data_setup/pipelines/data_collection_pipeline.py:199-200 | AVG is NULL exactly when SUM is |
| SectorAggregation.AvgIsMean | data_setup/pipelines/data_collection_pipeline.py:199-200 | AVG times the count of non-NULL values gives SUM |
| SectorAggregation.NullIsSkipped | data_setup/pipelines/data_collection_pipeline.py:198-200 | a row whose value is NULL changes neither SUM nor AVG |
| SectorAggregation.NumberIsAdded | data_setup/pipelines/data_collection_pipeline.py:198 | a row with a number adds it to SUM, starting from 0 when SUM was NULL |
| SectorAggregation.SumNullIffAllNull | data_setup/pipelines/data_collection_pipeline.py:198 | SUM is NULL exactly when every value is NULL |
| SectorAggregation.DistinctSectors | data_setup/pipelines/data_collection_pipeline.py:183 | the listed sectors (not NULL, not ''), each once, exactly those some row has |
| SectorAggregation.SectorRow | data_setup/pipelines/data_collection_pipeline.py:195-216 | a six-value record keyed by (sector, today's date) |
| SectorAggregation.SectorRows | data_setup/pipelines/data_collection_pipeline.py:190-216 | one record per distinct listed sector, in that order |
| SectorAggregation.NullFiguresCountOnly | data_setup/pipelines/data_collection_pipeline.py:197-215 | an asset with NULL figures raises the count by one and leaves total and both averages as they were |
| SectorAggregation.SectorKeysDistinct | data_setup/pipelines/data_collection_pipeline.py:209-211 | the records have pairwise different keys |
| SectorAggregation.SectorTableAfterUpsert | data_setup/pipelines/data_collection_pipeline.py:219-240 | after the upserts, every listed sector has its record under (sector, today) |
| Pipeline.InsertIfAny | data_setup/pipelines/data_collection_pipeline.py:132-139 | an empty list writes nothing |
| Pipeline.VolatilityRecords | data_setup/pipelines/data_collection_pipeline.py:159-167 | one record per row, or AttributeError exactly when some date cell is not a date |
| Pipeline.VolatilityOutcome | data_setup/pipelines/data_collection_pipeline.py:151-167 | the bound rows have the volatility table's width |
| Pipeline.Collect | data_setup/pipelines/data_collection_pipeline.py:68-91 | the overview and info calls are both made; the row is bound exactly when the asset dictionary binds; only a TypeError can come from building the dictionary |
| Pipeline.AssetStep | data_setup/pipelines/data_collection_pipeline.py:66-103 | an exception escapes exactly when the dictionary cannot be built, and then nothing is written and the step fails |
| Pipeline.VolatilityStep | data_setup/pipelines/data_collection_pipeline.py:141-174 | one one-year history call; only the record-building exception escapes, with nothing written; no frame or no rows writes nothing |
| Pipeline.SeriesRecords | data_setup/pipelines/data_collection_pipeline.py:120-129 | one record per observation, in order |
| Pipeline.EconomicStep | data_setup/pipelines/data_collection_pipeline.py:105-139 | the economic step never lets an exception escape |
| Pipeline.NoFredKeyNothingFetched | data_setup/components/data_collection_config.py:151-153 | without a FRED key no indicator makes a call or yields a record |
| Pipeline.NoFredKeyNoEffect | data_setup/pipelines/data_collection_pipeline.py:132-139 | without a FRED key the economic step makes no call and writes nothing |
| Pipeline.IndicatorDateReadsBack | data_setup/pipelines/data_collection_pipeline.py:124 | the date an indicator record stores reads back as the observation's date |
| Pipeline.VolatilityDateReadsBack | data_setup/pipelines/data_collection_pipeline.py:164 | the date a volatility record stores reads back as the row's date |
| Pipeline.CollectAll | data_setup/pipelines/data_collection_pipeline.py:265-268 | one shaped item per input |
| Pipeline.EscapeIsFinal | data_setup/pipelines/data_collection_pipeline.py:265-280 | once an exception escapes, later items change nothing |
| PipelineRuns.CollectLooksUpBoth | data_setup/pipelines/data_collection_pipeline.py:69-72 | for every asset the overview is requested (when a key is set) and the yfinance info always |
| PipelineRuns.CollectAllLookedUp | data_setup/pipelines/data_collection_pipeline.py:265-272 | every item of a run looked up both providers for its own symbol |
| PipelineRuns.ItemTrace | data_setup/pipelines/data_collection_pipeline.py:66-103 | an item nothing escaped made its lookups, the two-year history and, exactly when it succeeded and volatility is on, the one-year history; its flag is True exactly when the insert or the price fetch succeeded |
| PipelineRuns.RunStep | data_setup/pipelines/data_collection_pipeline.py:265-280 | an item adds its calls, then the pause, and one to the count exactly when it succeeded |
| PipelineRuns.RunCountsSuccesses | data_setup/pipelines/data_collection_pipeline.py:261-270 | the success count is the number of items that succeeded |
| PipelineRuns.RunRequestsInOrder | data_setup/pipelines/data_collection_pipeline.py:265-280 | the calls are made item by item, in input order |
| PipelineRuns.RunSleeps | data_setup/pipelines/data_collection_pipeline.py:276-280 | the run pauses total - 1 times when delay > 0 and never otherwise |
| PipelineRuns.RunEndsWithCall | data_setup/pipelines/data_collection_pipeline.py:276-280 | the run's trace ends on a provider call, never on a pause |
| Pipeline.FinancialDataPipeline.constructor | data_setup/pipelines/data_collection_pipeline.py:24-41 | a fresh database over the initial tables and the given collector |
| Pipeline.FinancialDataPipeline.CollectAndInsertAsset | data_setup/pipelines/data_collection_pipeline.py:54-103 | the flag, the escaping exception, the calls and the new database state are exactly `AssetStep` of what the fetches yield |
| Pipeline.FinancialDataPipeline.CollectAndInsertVolatilityData | data_setup/pipelines/data_collection_pipeline.py:141-174 | the escaping exception, the calls and the new state are exactly `VolatilityStep` |
| Pipeline.FinancialDataPipeline.BuildVolatilityRecords | data_setup/pipelines/data_collection_pipeline.py:159-167 | the loop yields `VolatilityRecords`: one record per row, or AttributeError |
| Pipeline.FinancialDataPipeline.CollectAndInsertEconomicIndicators | data_setup/pipelines/data_collection_pipeline.py:105-139 | the calls and the new state are exactly `EconomicStep` |
| Pipeline.FinancialDataPipeline.FetchIndicators | data_setup/pipelines/data_collection_pipeline.py:114-129 | the loop yields the records and calls of all indicators, in table order |
| Pipeline.FinancialDataPipeline.BuildSeriesRecords | data_setup/pipelines/data_collection_pipeline.py:120-129 | the loop yields `SeriesRecords`: one record per observation |
| Pipeline.FinancialDataPipeline.UpdateSectorPerformance | data_setup/pipelines/data_collection_pipeline.py:176-244 | the scan lists every asset once, and the sector records of that scan are upserted and committed, nothing when there is no listed sector |
| Pipeline.FinancialDataPipeline.BuildSectorRecords | data_setup/pipelines/data_collection_pipeline.py:190-216 | the loop yields `SectorRows`: one record per distinct sector |
| Pipeline.FinancialDataPipeline.ProcessAsset | data_setup/pipelines/data_collection_pipeline.py:268-274 | the asset step, then the volatility step exactly when the asset succeeded and volatility is on, is exactly `ProcessItem` of what the fetches yield |
| Pipeline.FinancialDataPipeline.CollectItem | data_setup/pipelines/data_collection_pipeline.py:265-280 | one pass extends `RunItems` by exactly this item: its flag, its calls and the pause, and the new state |
| Pipeline.FinancialDataPipeline.CollectItems | data_setup/pipelines/data_collection_pipeline.py:261-280 | the loop's count, trace and state are exactly `RunItems` over all items |
| Pipeline.FinancialDataPipeline.CollectIndicatorsAndSectors | data_setup/pipelines/data_collection_pipeline.py:283-287 | the economic step only when asked for, then the sector records of the assets then stored |
| Pipeline.FinancialDataPipeline.RunComprehensiveCollection | data_setup/pipelines/data_collection_pipeline.py:246-291 | an escaping exception ends the run as `RunItems` left it; otherwise the success count is returned, the economic calls follow the item calls, and the sector records of the final assets are written |

## Left out

- HTTP requests, yfinance and the sqlite3 driver are external. Their answers (`Reply`) and the step at which the driver fails (`fault`) are inputs.
- `datetime.now()` is an input: the default FRED start date and `today` are parameters. `time.sleep` is a `Sleep` event in the trace.
- Logging and printing are not modelled.
- `setup_database`, `create_database`, `connect` and `close` are not modelled. The database is taken to be connected from the start, so a failing `connect` is not modelled.
- `get_data_summary`, `get_asset_symbols` and the other read-side query helpers are not modelled. `execute_query` appears only as the scan of `assets` that the sector figures read.
- The `create_collection_plan` functions, `run_custom_collection`, `main.py` and `data_analysis/correlation.py` are not part of this model.
- `get_vix_data` is not part of this model: no pipeline step calls it.
- `insert_daily_prices` writes through pandas `to_sql`, whose behaviour lives in pandas, so that write is not modelled. Only the column preparation and the required-column check are modelled (`Database.PrepareDailyPrices`).
- `insert_daily_prices` swallows every exception, so `collect_and_insert_asset` counts the price step as a success whenever the fetch returned a frame. The model does the same.
- `clean_value` has a default 'str' kind that no caller uses; it is not modelled.
- `DataCollection.RealizedVolatility`: the percent changes, the rolling standard deviation and the √252 factor are floating point. They enter as the input `sigma`; only labelling and row dropping are modelled.
- `Scalars.Strptime`: the digits of the `%Y`, `%m` and `%d` patterns are ASCII digits. CPython's `\d` also matches the other Unicode decimal digits, which `int()` converts, so a date written in those digits parses in CPython and gives None here.
- `Database.UpsertsEffect`: a driver failure ends one statement and leaves the transaction open, so the rows executed before it stay pending. The errors on which SQLite rolls the whole transaction back (SQLITE_FULL, SQLITE_IOERR, SQLITE_NOMEM and some SQLITE_BUSY) are not modelled: there the pending rows would be lost.
- `DataCollection.RealizedVolatility`: a price frame with a repeated `symbol` or `date` label gives no rows here. pandas keeps every column with that label. A repeated `date` then makes the `strftime` of data_setup/pipelines/data_collection_pipeline.py:164 raise AttributeError, which escapes the run. A repeated `symbol` leaves a Series in the record, which the insert cannot bind. A repeated `returns` or `volatility_30d` label is likewise not modelled.
- `Scalars.PyFloat`: `float()` on strings accepts only an optional sign and a decimal numeral. Exponents, `inf`, `nan`, surrounding whitespace and underscores are not accepted, and numbers are exact reals rather than doubles.
- `DataCollection.ToDatetime`: `pd.to_datetime` is modelled on the values FRED sends, i.e. YYYY-MM-DD strings, empty strings and nulls. The other spellings pandas accepts are treated as parse errors. The Timestamp range is the nanosecond one (1677-09-22 to 2262-04-11 at midnight); a pandas that parses at another resolution accepts a wider range.
- `SectorAggregation.DistinctSectors`: the `is_active = TRUE` condition is not modelled. `insert_asset` never writes `is_active`, so every row carries the column default, taken to be TRUE.
- `SectorAggregation.InSector`: the same holds for the `is_active = TRUE` condition of the per-sector query.
- `Database.KeyColumns`: the schema file is not part of this model. Each table's unique key is taken from the columns its INSERT binds and the pipeline's use of it:
  - `assets`: symbol;
  - `economic_indicators`: indicator_code and date;
  - `market_indices`: symbol and date;
  - `volatility_data`: underlying symbol, type, date and period;
  - `sector_performance`: sector and date.
- Values are stored as they were bound. SQLite's column-affinity conversions and 64-bit integer limits are not modelled, and SUM and AVG are computed on exact reals.
- `Database.FinancialDatabase.ScanAssets`: SQLite's row order is left unspecified. The scan returns the rows in some order, each once.
- `Pipeline.Collect`: requires that every frame a fetch returns is rectangular (each column has one cell per row). pandas guarantees this for every frame.
- The loops of `collect_and_insert_volatility_data`, `collect_and_insert_economic_indicators`, `update_sector_performance` and `run_comprehensive_collection` are separate methods: `BuildVolatilityRecords`, `FetchIndicators`, `BuildSeriesRecords`, `BuildSectorRecords` and `CollectItems`. The methods modelling those functions call them. The body of that last loop is split the same way, into `CollectItem` and `ProcessAsset`, and the steps after it are in `CollectIndicatorsAndSectors`.
- `Pipeline.FinancialDataPipeline.RunComprehensiveCollection`: the final `get_data_summary` only prints, and is left out.
