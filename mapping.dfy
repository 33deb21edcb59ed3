/** The pipeline's asset mappers (data_setup/pipelines/data_collection_pipeline.py): the two
    field cleaners of the Alpha Vantage mapper, the three dictionary builders, and the
    whole-record choice between them that `collect_and_insert_asset` makes. */
module AssetMapping {
  import opened Scalars
  import opened Database

  // ---------------------------------------------------------------------------
  // clean_numeric and clean_date
  // ---------------------------------------------------------------------------

  /** `clean_numeric(value)`: the sentinels and whatever `float()` rejects become None;
      the ValueError and TypeError of `float()` are caught, so it never raises. */
  function CleanNumeric(v: Value): (r: Option<real>)
    ensures IsSentinel(v) ==> r == None
    ensures r.Some? ==> PyFloat(v) == r
    ensures !IsSentinel(v) && PyFloat(v).Some? ==> r.Some?
  {
    if IsSentinel(v) then None else PyFloat(v)
  }

  /** `clean_date(value)`: a falsy value or 'None' gives None, a str goes through
      `strptime` (ValueError caught, giving None); a truthy value that is not a str
      reaches `strptime` and its TypeError escapes. */
  function CleanDate(v: Value): (r: Outcome<Option<Date>>)
    ensures !Truthy(v) || v == VStr("None") ==> r == Ok(None)
    ensures r.Raised? <==> DateRaises(v)
    ensures r.Raised? ==> r.exc == TypeError
    ensures r.Ok? && r.value.Some? ==> v.VStr? && Strptime(v.s) == r.value
    ensures v.VStr? && Strptime(v.s).Some? ==> r == Ok(Strptime(v.s))
  {
    if Truthy(v) && v != VStr("None") then
      if v.VStr? then Ok(Strptime(v.s)) else Raised(TypeError)
    else Ok(None)
  }

  /** The cleaner reads back every date written as YYYY-MM-DD. */
  lemma CleanDateReadsIso(d: Date)
    ensures CleanDate(VStr(Strftime(d))) == Ok(Some(d))
  {
    StrptimeInvertsStrftime(d);
  }

  /** A cleaned number as it is stored in the asset dictionary: a float or None. */
  function NumberValue(x: Option<real>): Value {
    if x.Some? then VReal(x.value) else VNone
  }

  /** A cleaned date as it is stored in the asset dictionary: a `date` object or None. */
  function DateValue(d: Option<Date>): Value {
    if d.Some? then VDate(d.value) else VNone
  }

  /** `insert_asset` cleans the mapper's numbers again: a float survives the 'float'
      conversion unchanged, the 'int' conversion truncates it, and None stays None. */
  lemma {:induction false} RecleanedNumber(x: Option<real>)
    ensures CleanValue(NumberValue(x), KFloat) == Ok(NumberValue(x))
    ensures CleanValue(NumberValue(x), KInt) == Ok(if x.Some? then VInt(Truncate(x.value)) else VNone)
  {
  }

  /** `insert_asset` cleans the mapper's dates again: None stays None, and a `date`
      object, being truthy and not a str, makes `strptime` raise TypeError. */
  lemma {:induction false} RecleanedDate(d: Option<Date>)
    ensures CleanValue(DateValue(d), KDate) == if d.Some? then Raised(TypeError) else Ok(VNone)
  {
  }

  // ---------------------------------------------------------------------------
  // _map_alpha_vantage_to_asset
  // ---------------------------------------------------------------------------

  /** The 31 numeric keys the mapper writes. */
  const NumericKeys: set<string> := {
    "MarketCapitalization", "EBITDA", "PERatio", "PEGRatio", "BookValue", "DividendPerShare",
    "DividendYield", "EPS", "RevenuePerShareTTM", "ProfitMargin", "OperatingMarginTTM", "ReturnOnAssetsTTM",
    "ReturnOnEquityTTM", "RevenueTTM", "GrossProfitTTM", "DilutedEPSTTM", "QuarterlyEarningsGrowthYOY",
    "QuarterlyRevenueGrowthYOY", "AnalystTargetPrice", "TrailingPE", "ForwardPE", "PriceToSalesRatioTTM",
    "PriceToBookRatio", "EVToRevenue", "EVToEBITDA", "Beta", "52WeekHigh", "52WeekLow", "50DayMovingAverage",
    "200DayMovingAverage", "SharesOutstanding"}

  /** Every number `insert_asset` reads is one the mapper writes. */
  lemma MetricKeysMapped()
    ensures forall i :: 0 <= i < |MetricFields| ==> MetricFields[i].0 in NumericKeys
  {
  }

  const DescriptiveKeys: set<string> :=
    {"Symbol", "Name", "Description", "CIK", "Exchange", "Currency", "Country", "Sector", "Industry", "AssetType"}

  const DateKeys: set<string> := {"DividendDate", "ExDividendDate"}

  /** The ten descriptive fields, copied as they are, with Currency defaulting to 'USD'
      and AssetType to the requested type. */
  function DescriptiveFields(overview: Payload, assetType: string): (m: Payload)
    ensures m.Keys == DescriptiveKeys
  {
    map["Symbol" := Get(overview, "Symbol"), "Name" := Get(overview, "Name"),
        "Description" := Get(overview, "Description"), "CIK" := Get(overview, "CIK"),
        "Exchange" := Get(overview, "Exchange"), "Currency" := GetOr(overview, "Currency", VStr("USD")),
        "Country" := Get(overview, "Country"), "Sector" := Get(overview, "Sector"),
        "Industry" := Get(overview, "Industry"), "AssetType" := GetOr(overview, "AssetType", VStr(assetType))]
  }

  lemma DescriptiveDefaults(overview: Payload, assetType: string)
    ensures var d := DescriptiveFields(overview, assetType);
      && d["Symbol"] == Get(overview, "Symbol") && d["Sector"] == Get(overview, "Sector")
      && d["Currency"] == GetOr(overview, "Currency", VStr("USD"))
      && d["AssetType"] == GetOr(overview, "AssetType", VStr(assetType))
  {
  }

  /** The 31 numeric fields, each through `clean_numeric`. */
  function NumericFields(overview: Payload): (m: Payload)
    ensures m.Keys == NumericKeys
    ensures forall k :: k in m ==> m[k] == NumberValue(CleanNumeric(Get(overview, k)))
  {
    map k | k in NumericKeys :: NumberValue(CleanNumeric(Get(overview, k)))
  }

  /** No numeric key is also a descriptive or a date key. */
  lemma NumericKeysApart()
    ensures NumericKeys !! DescriptiveKeys && NumericKeys !! DateKeys && DescriptiveKeys !! DateKeys
  {
    NumericNotDescriptive();
  }

  lemma NumericNotDescriptive()
    ensures NumericKeys !! DescriptiveKeys
  {
  }

  /** `_map_alpha_vantage_to_asset(overview, asset_type)`; Raised is the TypeError of a
      `clean_date` given a truthy non-string, which escapes the mapper. */
  function MapAlphaVantage(overview: Payload, assetType: string): (r: Outcome<Payload>)
    ensures r.Raised? <==> DateRaises(Get(overview, "DividendDate")) || DateRaises(Get(overview, "ExDividendDate"))
    ensures r.Raised? ==> r.exc == TypeError
    ensures r.Ok? ==> r.value.Keys == DescriptiveKeys + NumericKeys + DateKeys
  {
    match CleanDate(Get(overview, "DividendDate"))
    case Raised(e) => Raised(e)
    case Ok(dividend) =>
      match CleanDate(Get(overview, "ExDividendDate"))
      case Raised(e) => Raised(e)
      case Ok(exDividend) =>
        var dates := map["DividendDate" := DateValue(dividend), "ExDividendDate" := DateValue(exDividend)];
        assert dates.Keys == DateKeys;
        Ok(NumericFields(overview) + DescriptiveFields(overview, assetType) + dates)
  }

  /** The Alpha Vantage record is the merge of its three parts, none overriding another. */
  lemma AlphaVantageParts(overview: Payload, assetType: string)
    requires MapAlphaVantage(overview, assetType).Ok?
    ensures var m := MapAlphaVantage(overview, assetType).value;
      && (forall k :: k in NumericKeys ==> m[k] == NumericFields(overview)[k])
      && (forall k :: k in DescriptiveKeys ==> m[k] == DescriptiveFields(overview, assetType)[k])
      && m["DividendDate"] == DateValue(CleanDate(Get(overview, "DividendDate")).value)
      && m["ExDividendDate"] == DateValue(CleanDate(Get(overview, "ExDividendDate")).value)
  {
    NumericKeysApart();
    var n, d := NumericFields(overview), DescriptiveFields(overview, assetType);
    var t := map["DividendDate" := DateValue(CleanDate(Get(overview, "DividendDate")).value),
                 "ExDividendDate" := DateValue(CleanDate(Get(overview, "ExDividendDate")).value)];
    var m := MapAlphaVantage(overview, assetType).value;
    assert m == n + d + t;
    assert t.Keys == DateKeys;
    forall k | k in NumericKeys ensures m[k] == n[k] {
      assert k !in d && k !in t;
    }
    forall k | k in DescriptiveKeys ensures m[k] == d[k] {
      assert k !in t;
    }
  }

  /** What every field of the Alpha Vantage record holds: descriptive fields copied, with
      Currency defaulting to 'USD' and AssetType to the requested type only when the
      payload lacks them; numbers through `clean_numeric`; dates through `clean_date`. */
  lemma AlphaVantageFields(overview: Payload, assetType: string)
    requires MapAlphaVantage(overview, assetType).Ok?
    ensures var m := MapAlphaVantage(overview, assetType).value;
      && m["Symbol"] == Get(overview, "Symbol")
      && m["Sector"] == Get(overview, "Sector")
      && m["Currency"] == (if "Currency" in overview then overview["Currency"] else VStr("USD"))
      && m["AssetType"] == (if "AssetType" in overview then overview["AssetType"] else VStr(assetType))
      && (forall k :: k in NumericKeys ==> m[k] == NumberValue(CleanNumeric(Get(overview, k))))
      && m["DividendDate"] == DateValue(CleanDate(Get(overview, "DividendDate")).value)
      && m["ExDividendDate"] == DateValue(CleanDate(Get(overview, "ExDividendDate")).value)
  {
    AlphaVantageParts(overview, assetType);
    DescriptiveDefaults(overview, assetType);
  }

  /** A record holding cleaned dates binds exactly when both are None. */
  lemma DatesMakeBindRaise(m: Payload, dividend: Option<Date>, exDividend: Option<Date>)
    requires Get(m, "DividendDate") == DateValue(dividend) && Get(m, "ExDividendDate") == DateValue(exDividend)
    ensures BindAsset(m).Raised? <==> dividend.Some? || exDividend.Some?
  {
  }

  /** The asset insert fails on an Alpha Vantage record exactly when the mapper found a
      valid dividend or ex-dividend date: the mapper has already turned it into a `date`,
      and `clean_value(..., 'date')` hands that to `strptime`, which raises TypeError. */
  lemma AlphaVantageInsertFailsOnDates(overview: Payload, assetType: string)
    requires MapAlphaVantage(overview, assetType).Ok?
    ensures var bound := BindAsset(MapAlphaVantage(overview, assetType).value);
      && (bound.Raised? <==>
            CleanDate(Get(overview, "DividendDate")).value.Some? || CleanDate(Get(overview, "ExDividendDate")).value.Some?)
      && (bound.Raised? ==> bound.exc == TypeError)
  {
    AlphaVantageParts(overview, assetType);
    var m := MapAlphaVantage(overview, assetType).value;
    DatesMakeBindRaise(m, CleanDate(Get(overview, "DividendDate")).value, CleanDate(Get(overview, "ExDividendDate")).value);
  }

  /** A concrete overview that shows it: a well-formed dividend date alone is enough. */
  lemma DividendDateExample()
    ensures var overview := map["Symbol" := VStr("AAPL"), "DividendDate" := VStr("2024-05-16")];
      && MapAlphaVantage(overview, "Stock").Ok?
      && BindAsset(MapAlphaVantage(overview, "Stock").value) == Raised(TypeError)
  {
    var overview := map["Symbol" := VStr("AAPL"), "DividendDate" := VStr("2024-05-16")];
    var d: Date := DateRec(2024, 5, 16);
    ExampleDateIso();
    CleanDateReadsIso(d);
    assert CleanDate(Get(overview, "DividendDate")) == Ok(Some(d));
    assert CleanDate(Get(overview, "ExDividendDate")) == Ok(None);
    assert MapAlphaVantage(overview, "Stock").Ok?;
    AlphaVantageInsertFailsOnDates(overview, "Stock");
    assert BindAsset(MapAlphaVantage(overview, "Stock").value).Raised?;
  }

  lemma ExampleDateIso()
    ensures Strftime(DateRec(2024, 5, 16)) == "2024-05-16"
  {
    assert Padded(2024, 4) == "2024";
    TwoDigits(5);
    TwoDigits(16);
  }

  // ---------------------------------------------------------------------------
  // _map_yfinance_to_asset and _create_minimal_asset
  // ---------------------------------------------------------------------------

  /** `_map_yfinance_to_asset(symbol, info, asset_type)`: twenty fields, no CIK and no
      dividend dates; numbers are copied without cleaning. */
  function MapYfinance(symbol: string, info: Payload, assetType: string): (r: Payload)
    ensures r.Keys == YfinanceKeys
  {
    map["Description" := GetOr(info, "longBusinessSummary", VStr("")),
        "Exchange" := GetOr(info, "exchange", VStr("")), "Country" := GetOr(info, "country", VStr("")),
        "Industry" := GetOr(info, "industry", VStr("")),
        "MarketCapitalization" := Get(info, "marketCap"), "PERatio" := Get(info, "trailingPE"),
        "BookValue" := Get(info, "bookValue"), "DividendYield" := Get(info, "dividendYield"),
        "EPS" := Get(info, "trailingEps"), "Beta" := Get(info, "beta"),
        "52WeekHigh" := Get(info, "fiftyTwoWeekHigh"), "52WeekLow" := Get(info, "fiftyTwoWeekLow"),
        "50DayMovingAverage" := Get(info, "fiftyDayAverage"),
        "200DayMovingAverage" := Get(info, "twoHundredDayAverage"),
        "SharesOutstanding" := Get(info, "sharesOutstanding"),
        "Sector" := GetOr(info, "sector", VStr("")), "Currency" := GetOr(info, "currency", VStr("USD")),
        "Name" := GetOr(info, "longName", VStr(symbol)), "AssetType" := VStr(assetType), "Symbol" := VStr(symbol)]
  }

  /** The yfinance record keeps the requested symbol and type, falls back to the symbol for
      the name and to 'USD' for the currency, and to '' for the sector. */
  lemma YfinanceFields(symbol: string, info: Payload, assetType: string)
    ensures var r := MapYfinance(symbol, info, assetType);
      && r["Symbol"] == VStr(symbol)
      && r["AssetType"] == VStr(assetType)
      && r["Name"] == (if "longName" in info then info["longName"] else VStr(symbol))
      && r["Currency"] == (if "currency" in info then info["currency"] else VStr("USD"))
      && r["Sector"] == (if "sector" in info then info["sector"] else VStr(""))
  {
  }

  const YfinanceKeys: set<string> := {
    "Symbol", "Name", "Description", "Exchange", "Currency", "Country", "Sector", "Industry", "AssetType",
    "MarketCapitalization", "PERatio", "BookValue", "DividendYield", "EPS", "Beta", "52WeekHigh", "52WeekLow",
    "50DayMovingAverage", "200DayMovingAverage", "SharesOutstanding"}

  /** The yfinance record has neither a CIK nor dividend dates. */
  lemma YfinanceKeysShape()
    ensures "CIK" !in YfinanceKeys && YfinanceKeys !! DateKeys
  {
  }

  /** `_create_minimal_asset(symbol, asset_type)` */
  function MinimalAsset(symbol: string, assetType: string): (r: Payload)
    ensures r.Keys == {"Symbol", "Name", "AssetType", "Currency"}
    ensures r["Symbol"] == VStr(symbol) && r["Name"] == VStr(symbol)
    ensures r["AssetType"] == VStr(assetType) && r["Currency"] == VStr("USD")
  {
    map["Symbol" := VStr(symbol), "Name" := VStr(symbol), "AssetType" := VStr(assetType), "Currency" := VStr("USD")]
  }

  /** The yfinance and minimal records carry no dividend date, so their insert never
      raises, and the row is keyed by the requested symbol with the requested type. */
  lemma FallbackRecordsBind(symbol: string, info: Payload, assetType: string)
    ensures BindAsset(MapYfinance(symbol, info, assetType)).Ok?
    ensures BindAsset(MinimalAsset(symbol, assetType)).Ok?
    ensures BindAsset(MapYfinance(symbol, info, assetType)).value[0] == VStr(symbol)
    ensures BindAsset(MapYfinance(symbol, info, assetType)).value[9] == VStr(assetType)
    ensures BindAsset(MinimalAsset(symbol, assetType)).value[0] == VStr(symbol)
    ensures BindAsset(MinimalAsset(symbol, assetType)).value[5] == VStr("USD")
    ensures BindAsset(MinimalAsset(symbol, assetType)).value[9] == VStr(assetType)
  {
    YfinanceBinds(symbol, info, assetType);
    MinimalBinds(symbol, assetType);
  }

  lemma YfinanceBinds(symbol: string, info: Payload, assetType: string)
    ensures BindAsset(MapYfinance(symbol, info, assetType)).Ok?
    ensures BindAsset(MapYfinance(symbol, info, assetType)).value[0] == VStr(symbol)
    ensures BindAsset(MapYfinance(symbol, info, assetType)).value[9] == VStr(assetType)
  {
    var m := MapYfinance(symbol, info, assetType);
    YfinanceKeysShape();
    YfinanceFields(symbol, info, assetType);
    assert "DividendDate" !in m && "ExDividendDate" !in m;
    DatesMakeBindRaise(m, None, None);
    BindAssetShape(m);
  }

  lemma MinimalBinds(symbol: string, assetType: string)
    ensures BindAsset(MinimalAsset(symbol, assetType)).Ok?
    ensures BindAsset(MinimalAsset(symbol, assetType)).value[0] == VStr(symbol)
    ensures BindAsset(MinimalAsset(symbol, assetType)).value[5] == VStr("USD")
    ensures BindAsset(MinimalAsset(symbol, assetType)).value[9] == VStr(assetType)
  {
    var m := MinimalAsset(symbol, assetType);
    DatesMakeBindRaise(m, None, None);
    BindAssetShape(m);
  }

  // ---------------------------------------------------------------------------
  // The whole-record fallback of collect_and_insert_asset
  // ---------------------------------------------------------------------------

  datatype Source = AlphaVantage | Yfinance | Minimal

  /** `if overview_data: ... elif yf_info: ... else: ...`; a dict is truthy when non-empty. */
  function ChosenSource(overview: Option<Payload>, info: Payload): (s: Source)
    ensures s == AlphaVantage <==> overview.Some? && overview.value != map[]
    ensures s == Yfinance <==> (overview.None? || overview.value == map[]) && info != map[]
  {
    if overview.Some? && overview.value != map[] then AlphaVantage
    else if info != map[] then Yfinance
    else Minimal
  }

  /** The asset dictionary `collect_and_insert_asset` builds; Raised is the TypeError of
      the Alpha Vantage mapper, which nothing in the method catches. */
  function SelectAsset(symbol: string, assetType: string, overview: Option<Payload>, info: Payload): (r: Outcome<Payload>)
    ensures r.Raised? ==> ChosenSource(overview, info) == AlphaVantage && r.exc == TypeError
  {
    match ChosenSource(overview, info)
    case AlphaVantage => MapAlphaVantage(overview.value, assetType)
    case Yfinance => Ok(MapYfinance(symbol, info, assetType))
    case Minimal => Ok(MinimalAsset(symbol, assetType))
  }

  /** The record comes whole from one source: the Alpha Vantage record ignores the yfinance
      info, and the yfinance and minimal records ignore the overview. */
  lemma NoFieldMerge(symbol: string, assetType: string, overview: Option<Payload>, info1: Payload, info2: Payload)
    ensures ChosenSource(overview, info1) == AlphaVantage ==>
      SelectAsset(symbol, assetType, overview, info1) == SelectAsset(symbol, assetType, overview, info2)
    ensures ChosenSource(overview, info1) == Yfinance ==>
      SelectAsset(symbol, assetType, overview, info1) == Ok(MapYfinance(symbol, info1, assetType))
      && SelectAsset(symbol, assetType, None, info1) == SelectAsset(symbol, assetType, overview, info1)
    ensures ChosenSource(overview, info1) == Minimal ==>
      SelectAsset(symbol, assetType, overview, info1) == Ok(MinimalAsset(symbol, assetType))
  {
  }

  /** Only an Alpha Vantage record can make the asset insert raise, and only through a
      valid dividend or ex-dividend date. */
  lemma InsertFailsOnlyOnAlphaVantageDates(symbol: string, assetType: string, overview: Option<Payload>, info: Payload)
    requires SelectAsset(symbol, assetType, overview, info).Ok?
    requires BindAsset(SelectAsset(symbol, assetType, overview, info).value).Raised?
    ensures ChosenSource(overview, info) == AlphaVantage
    ensures CleanDate(Get(overview.value, "DividendDate")).value.Some?
         || CleanDate(Get(overview.value, "ExDividendDate")).value.Some?
  {
    FallbackRecordsBind(symbol, info, assetType);
    if ChosenSource(overview, info) == AlphaVantage {
      AlphaVantageInsertFailsOnDates(overview.value, assetType);
    }
  }
}
