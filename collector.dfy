/** The data collector (data_setup/components/data_collection_config.py): provider
    fetches with their acceptance tests and reshaping, realized-volatility labelling,
    the rate-limited batch runner and the constant tables. Every provider answer is an
    input (`Reply`); every provider call and every `time.sleep` is an `Event` in a trace. */
module DataCollection {
  import opened Scalars
  import opened Frames

  /** The collector's configuration; it is never changed after construction. */
  datatype FinancialDataCollector = FinancialDataCollector(alphaVantageKey: Option<string>, fredApiKey: Option<string>)

  /** `if not key`: a missing key and an empty key both leave the provider unconfigured. */
  predicate Configured(key: Option<string>) {
    key.Some? && key.value != ""
  }

  /** A call to an external provider, or to the function a batch runs. */
  datatype Request =
    | Overview(symbol: string)
    | Info(symbol: string)
    | History(symbol: string, period: string)
    | Observations(seriesId: string, start: string)
    | CollectionCall(symbol: string)

  datatype Event = Call(request: Request) | Sleep(seconds: real)

  /** What a provider call did: raised (any exception), or answered with a body. */
  datatype Reply<+T> = Failed | Answered(body: T)

  /** A fetch result together with the provider calls made to obtain it. */
  datatype Fetched<+T> = Fetched(value: T, events: seq<Event>)

  // ---------------------------------------------------------------------------
  // Asset overview (Alpha Vantage) and asset info (yfinance)
  // ---------------------------------------------------------------------------

  /** A usable OVERVIEW payload names the symbol and carries no throttle note and no error. */
  predicate OverviewAccepted(data: Payload) {
    "Symbol" in data && "Note" !in data && "Error Message" !in data
  }

  function GetAssetOverview(c: FinancialDataCollector, symbol: string, reply: Reply<Payload>): (r: Fetched<Option<Payload>>)
    ensures !Configured(c.alphaVantageKey) ==> r == Fetched(None, [])
    ensures Configured(c.alphaVantageKey) ==> r.events == [Call(Overview(symbol))]
    ensures r.value.Some? <==> Configured(c.alphaVantageKey) && reply.Answered? && OverviewAccepted(reply.body)
    ensures r.value.Some? ==> r.value.value == reply.body && r.value.value != map[]
  {
    if !Configured(c.alphaVantageKey) then Fetched(None, [])
    else
      var events := [Call(Overview(symbol))];
      match reply
      case Failed => Fetched(None, events)
      case Answered(data) => Fetched(if OverviewAccepted(data) then Some(data) else None, events)
  }

  function GetAssetInfo(symbol: string, reply: Reply<Payload>): (r: Fetched<Payload>)
    ensures r.events == [Call(Info(symbol))]
    ensures reply.Failed? ==> r.value == map[]
    ensures reply.Answered? ==> r.value == reply.body
  {
    Fetched(if reply.Answered? then reply.body else map[], [Call(Info(symbol))])
  }

  // ---------------------------------------------------------------------------
  // Price history (yfinance)
  // ---------------------------------------------------------------------------

  const PriceColumns: map<string, string> := map[
    "Date" := "date", "Open" := "open_price", "High" := "high_price", "Low" := "low_price",
    "Close" := "close_price", "Volume" := "volume", "Dividends" := "dividend_amount",
    "Stock Splits" := "split_coefficient"]

  /** The frame `get_price_data_yfinance` returns for a history the provider answered with:
      None for an empty history and for any exception while reshaping. */
  function ReshapedHistory(hist: Frame, symbol: string): (r: Option<Frame>)
    ensures hist.IsEmpty() ==> r == None
    ensures r.Some? ==> r.value.Rows() == hist.Rows() && r.value.Has("symbol") && r.value.Has("adjusted_close")
    ensures r.Some? ==> forall i :: 0 <= i < |r.value.columns| && r.value.columns[i].name == "symbol" ==>
      r.value.columns[i].cells == Fill(VStr(symbol), hist.Rows())
    ensures hist.WellFormed() && r.Some? ==> r.value.WellFormed()
  {
    if hist.IsEmpty() then None
    else
      match ResetIndexed(hist)
      case Raised(_) => None
      case Ok(flat) =>
        var renamed := Renamed(flat, PriceColumns);
        var tagged := WithCells(renamed, "symbol", Fill(VStr(symbol), renamed.Rows()));
        if tagged.Has("adjusted_close") then Some(tagged)
        else
          match SingleColumn(tagged, "close_price")
          case Raised(_) => None
          case Ok(close) =>
            WithCellsKeeps(tagged, "adjusted_close", close, "symbol", Fill(VStr(symbol), hist.Rows()));
            Some(WithCells(tagged, "adjusted_close", close))
  }

  /** `get_price_data_yfinance`: the provider's frame is reshaped in place. */
  method GetPriceDataYfinance(symbol: string, period: string, reply: Reply<Frame>) returns (r: Fetched<Option<Frame>>)
    ensures r.events == [Call(History(symbol, period))]
    ensures reply.Failed? ==> r.value == None
    ensures reply.Answered? ==> r.value == ReshapedHistory(reply.body, symbol)
  {
    var events := [Call(History(symbol, period))];
    if reply.Failed? {
      return Fetched(None, events);
    }
    var hist := new DataFrame(reply.body);
    if hist.Snapshot().IsEmpty() {
      return Fetched(None, events);
    }
    var raised := hist.ResetIndex();
    if raised.Some? {
      return Fetched(None, events);
    }
    hist.Rename(PriceColumns);
    hist.SetScalar("symbol", VStr(symbol));
    if !hist.Snapshot().Has("adjusted_close") {
      raised := hist.CopyColumn("adjusted_close", "close_price");
      if raised.Some? {
        return Fetched(None, events);
      }
    }
    r := Fetched(Some(hist.Snapshot()), events);
  }

  /** The columns of a daily history as yfinance delivers it (for a stock). */
  const YahooColumns: seq<string> := ["Open", "High", "Low", "Close", "Volume", "Dividends", "Stock Splits"]

  /** The labels the index and those columns take after the rename. */
  const PriceTargets: seq<string> := ["date", "open_price", "high_price", "low_price", "close_price", "volume",
                                      "dividend_amount", "split_coefficient"]

  lemma StandardLabel(i: nat)
    requires i < 8
    ensures RenamedLabel((["Date"] + YahooColumns)[i], PriceColumns) == PriceTargets[i]
  {
    if i == 0 {} else if i == 1 {} else if i == 2 {} else if i == 3 {}
    else if i == 4 {} else if i == 5 {} else if i == 6 {} else {}
  }

  lemma TargetNames(i: nat)
    requires i < 8
    ensures PriceTargets[i] != "adjusted_close" && PriceTargets[i] != "symbol"
    ensures PriceTargets[i] == "close_price" <==> i == 4
  {
    if i == 0 {} else if i == 1 {} else if i == 2 {} else if i == 3 {}
    else if i == 4 {} else if i == 5 {} else if i == 6 {} else {}
  }

  /** The reset, renamed standard history: the database's labels in yfinance's order. */
  function StandardRenamedColumns(hist: Frame): (cs: seq<Column>)
    requires |hist.columns| == 7
    ensures |cs| == 8 && forall i :: 0 <= i < 8 ==> cs[i].name == PriceTargets[i]
  {
    [Column("date", hist.index)] + seq(7, i requires 0 <= i < 7 => Column(PriceTargets[i + 1], hist.columns[i].cells))
  }

  /** ... followed by the symbol and `adjusted_close` as a copy of the close. */
  function StandardPriceColumns(hist: Frame, symbol: string): seq<Column>
    requires |hist.columns| == 7
  {
    StandardRenamedColumns(hist) + [Column("symbol", Fill(VStr(symbol), hist.Rows()))] + [Column("adjusted_close", hist.columns[3].cells)]
  }

  /** Column i of the reset standard history, renamed, is column i of the standard columns. */
  lemma RenamedStandardColumn(hist: Frame, i: nat)
    requires |hist.columns| == 7 && forall j :: 0 <= j < 7 ==> hist.columns[j].name == YahooColumns[j]
    requires i < 8
    ensures var col := ([Column("Date", hist.index)] + hist.columns)[i];
      Column(RenamedLabel(col.name, PriceColumns), col.cells) == StandardRenamedColumns(hist)[i]
  {
    StandardLabel(i);
    var col := ([Column("Date", hist.index)] + hist.columns)[i];
    if i == 0 {
      assert col == Column("Date", hist.index);
    } else {
      assert col == hist.columns[i - 1] && col.name == YahooColumns[i - 1];
    }
  }

  lemma {:induction false} StandardRenamed(hist: Frame)
    requires hist.indexName == Some("Date")
    requires |hist.columns| == 7 && forall i :: 0 <= i < 7 ==> hist.columns[i].name == YahooColumns[i]
    ensures ResetIndexed(hist).Ok?
    ensures Renamed(ResetIndexed(hist).value, PriceColumns) == Frame(None, RangeIndex(hist.Rows()), StandardRenamedColumns(hist))
  {
    assert !hist.Has("Date");
    var flat := Frame(None, RangeIndex(hist.Rows()), [Column("Date", hist.index)] + hist.columns);
    assert ResetIndexed(hist) == Ok(flat);
    var renamed := Renamed(flat, PriceColumns);
    var want := StandardRenamedColumns(hist);
    forall i | 0 <= i < 8 ensures renamed.columns[i] == want[i] {
      RenamedStandardColumn(hist, i);
    }
    assert renamed.columns == want;
  }

  /** Reset, renamed and tagged with the symbol, a standard history has the database's
      labels in yfinance's order followed by the symbol. */
  lemma {:induction false} StandardTagged(hist: Frame, symbol: string)
    requires hist.indexName == Some("Date")
    requires |hist.columns| == 7 && forall i :: 0 <= i < 7 ==> hist.columns[i].name == YahooColumns[i]
    ensures ResetIndexed(hist).Ok?
    ensures var renamed := Renamed(ResetIndexed(hist).value, PriceColumns);
      WithCells(renamed, "symbol", Fill(VStr(symbol), renamed.Rows())) == StandardTaggedFrame(hist, symbol)
  {
    StandardRenamed(hist);
    var renamed := Renamed(ResetIndexed(hist).value, PriceColumns);
    var base := StandardRenamedColumns(hist);
    assert !renamed.Has("symbol") by {
      forall i | 0 <= i < 8 ensures base[i].name != "symbol" {
        TargetNames(i);
      }
    }
  }

  function StandardTaggedFrame(hist: Frame, symbol: string): Frame
    requires |hist.columns| == 7
  {
    Frame(None, RangeIndex(hist.Rows()), StandardRenamedColumns(hist) + [Column("symbol", Fill(VStr(symbol), hist.Rows()))])
  }

  /** That frame has no `adjusted_close` and exactly one `close_price`, yfinance's Close. */
  lemma {:induction false} StandardCloseUnique(hist: Frame, symbol: string)
    requires |hist.columns| == 7
    ensures !StandardTaggedFrame(hist, symbol).Has("adjusted_close")
    ensures SingleColumn(StandardTaggedFrame(hist, symbol), "close_price") == Ok(hist.columns[3].cells)
  {
    var base := StandardRenamedColumns(hist);
    var cols := StandardTaggedFrame(hist, symbol).columns;
    forall i | 0 <= i < 9 ensures cols[i].name != "adjusted_close" && (cols[i].name == "close_price" <==> i == 4) {
      if i < 8 {
        assert cols[i] == base[i];
        TargetNames(i);
      }
    }
    OnlyColumnNamed(cols, "close_price", 4);
  }

  /** A non-empty history indexed by 'Date' with yfinance's columns is reshaped into
      exactly the frame with the database's labels, the symbol and `adjusted_close`
      copied from the close. */
  lemma {:induction false} StandardHistoryReshaped(hist: Frame, symbol: string)
    requires hist.Rows() > 0 && hist.indexName == Some("Date")
    requires |hist.columns| == 7 && forall i :: 0 <= i < 7 ==> hist.columns[i].name == YahooColumns[i]
    ensures ReshapedHistory(hist, symbol) == Some(Frame(None, RangeIndex(hist.Rows()), StandardPriceColumns(hist, symbol)))
  {
    StandardTagged(hist, symbol);
    StandardCloseUnique(hist, symbol);
  }

  lemma {:induction false} CountNamedAppend(a: seq<Column>, b: seq<Column>, name: string)
    ensures CountNamed(a + b, name) == CountNamed(a, name) + CountNamed(b, name)
  {
    if a != [] {
      assert (a + b)[1..] == a[1..] + b;
      CountNamedAppend(a[1..], b, name);
    } else {
      assert a + b == b;
    }
  }

  // ---------------------------------------------------------------------------
  // FRED observations
  // ---------------------------------------------------------------------------

  /** The FRED answer: the 'observations' list when the key is present. */
  datatype FredResponse = FredResponse(observations: Option<seq<Payload>>)

  /** One row of the frame `get_fred_economic_data` returns: date, series_id, value. */
  datatype FredRow = FredRow(date: Date, seriesId: string, value: real)

  /** The days a nanosecond pandas Timestamp can hold at midnight: from 1677-09-22 (the
      smallest Timestamp is 1677-09-21 00:12:43.145224193) to 2262-04-11. */
  predicate InTimestampRange(d: Date) {
    && (d.year > 1677 || (d.year == 1677 && (d.month > 9 || (d.month == 9 && d.day >= 22))))
    && (d.year < 2262 || (d.year == 2262 && (d.month < 4 || (d.month == 4 && d.day <= 11))))
  }

  /** `pd.to_datetime` on one cell: null and '' give NaT (None), an ISO date inside the
      Timestamp range gives a date, and anything else raises a ValueError (outside the range,
      OutOfBoundsDatetime, which is one). */
  function ToDatetime(v: Value): (r: Outcome<Option<Date>>)
    ensures r.Ok? && r.value.Some? ==> InTimestampRange(r.value.value)
    ensures r.Raised? ==> r.exc == ValueError
  {
    match v
    case VNone => Ok(None)
    case VDate(d) => if InTimestampRange(d) then Ok(Some(d)) else Raised(ValueError)
    case VStr(s) =>
      if s == "" then Ok(None)
      else if Strptime(s).Some? && InTimestampRange(Strptime(s).value) then Ok(Some(Strptime(s).value))
      else Raised(ValueError)
    case VInt(_) => Raised(ValueError)
    case VReal(_) => Raised(ValueError)
  }

  function ParsedDates(obs: seq<Payload>): (r: Outcome<seq<Option<Date>>>)
    ensures r.Ok? ==> |r.value| == |obs|
  {
    if obs == [] then Ok([])
    else
      match ToDatetime(Get(obs[0], "date"))
      case Raised(e) => Raised(e)
      case Ok(d) =>
        match ParsedDates(obs[1..])
        case Raised(e) => Raised(e)
        case Ok(ds) => Ok([d] + ds)
  }

  /** Whether the frame built from the records has the column at all (pandas fills
      records that lack the key with NaN). */
  predicate AnyHas(obs: seq<Payload>, key: string) {
    exists i :: 0 <= i < |obs| && key in obs[i]
  }

  /** The row one observation contributes: one when it has a date and a numeric value. */
  function ObservationRow(o: Payload, d: Option<Date>, seriesId: string): seq<FredRow> {
    var x := PyFloat(Get(o, "value"));
    if d.Some? && x.Some? then [FredRow(d.value, seriesId, x.value)] else []
  }

  /** `dropna()` after `pd.to_numeric(errors='coerce')`: the observations with a date and a
      numeric value, in order, tagged with the series id. */
  function KeptRows(obs: seq<Payload>, dates: seq<Option<Date>>, seriesId: string): (rows: seq<FredRow>)
    requires |dates| == |obs|
    ensures |rows| <= |obs|
    ensures forall r :: r in rows ==> r.seriesId == seriesId
  {
    if obs == [] then [] else ObservationRow(obs[0], dates[0], seriesId) + KeptRows(obs[1..], dates[1..], seriesId)
  }

  /** Every kept row comes from an observation with that date and that numeric value. */
  lemma {:induction false} KeptRowsSound(obs: seq<Payload>, dates: seq<Option<Date>>, seriesId: string)
    requires |dates| == |obs|
    ensures forall r :: r in KeptRows(obs, dates, seriesId) ==>
      exists i :: 0 <= i < |obs| && dates[i] == Some(r.date) && PyFloat(Get(obs[i], "value")) == Some(r.value)
  {
    if obs != [] {
      KeptRowsSound(obs[1..], dates[1..], seriesId);
      forall r | r in KeptRows(obs, dates, seriesId)
        ensures exists i :: 0 <= i < |obs| && dates[i] == Some(r.date) && PyFloat(Get(obs[i], "value")) == Some(r.value)
      {
        if r !in ObservationRow(obs[0], dates[0], seriesId) {
          assert r in KeptRows(obs[1..], dates[1..], seriesId);
          var j :| 0 <= j < |obs| - 1 && dates[1..][j] == Some(r.date) && PyFloat(Get(obs[1..][j], "value")) == Some(r.value);
          assert dates[j + 1] == Some(r.date) && obs[j + 1] == obs[1..][j];
        }
      }
    }
  }

  /** Rows are kept or dropped one observation at a time. */
  lemma {:induction false} KeptRowsAppend(a: seq<Payload>, da: seq<Option<Date>>, b: seq<Payload>, db: seq<Option<Date>>, seriesId: string)
    requires |da| == |a| && |db| == |b|
    ensures KeptRows(a + b, da + db, seriesId) == KeptRows(a, da, seriesId) + KeptRows(b, db, seriesId)
  {
    if a != [] {
      assert (a + b)[1..] == a[1..] + b;
      assert (da + db)[1..] == da[1..] + db;
      KeptRowsAppend(a[1..], da[1..], b, db, seriesId);
    } else {
      assert a + b == b && da + db == db;
    }
  }

  /** Each observation is kept or dropped on its own: it contributes its row exactly when
      it has a date and a numeric value (FRED writes '.' for a missing value). */
  lemma {:induction false} OneObservation(a: seq<Payload>, da: seq<Option<Date>>, o: Payload, d: Option<Date>,
                       b: seq<Payload>, db: seq<Option<Date>>, seriesId: string)
    requires |da| == |a| && |db| == |b|
    ensures KeptRows(a + [o] + b, da + [d] + db, seriesId) ==
      KeptRows(a, da, seriesId) + ObservationRow(o, d, seriesId) + KeptRows(b, db, seriesId)
  {
    var ao, dao := a + [o], da + [d];
    KeptRowsAppend(ao, dao, b, db, seriesId);
    KeptRowsAppend(a, da, [o], [d], seriesId);
    assert KeptRows([o], [d], seriesId) == ObservationRow(o, d, seriesId) + KeptRows([], [], seriesId) by {
      assert [o][1..] == [] && [d][1..] == [];
    }
  }

  /** The frame built from a FRED answer; None where the source catches an exception. */
  function FredRows(resp: FredResponse, seriesId: string): (r: Option<seq<FredRow>>)
    ensures resp.observations.None? ==> r == None
    ensures r.Some? ==> |r.value| <= |resp.observations.value|
    ensures r.Some? ==> forall row :: row in r.value ==> row.seriesId == seriesId
  {
    if resp.observations.None? then None
    else
      var obs := resp.observations.value;
      if !AnyHas(obs, "date") then None
      else
        match ParsedDates(obs)
        case Raised(_) => None
        case Ok(dates) => if !AnyHas(obs, "value") then None else Some(KeptRows(obs, dates, seriesId))
  }

  function GetFredEconomicData(c: FinancialDataCollector, seriesId: string, start: string, reply: Reply<FredResponse>): (r: Fetched<Option<seq<FredRow>>>)
    ensures !Configured(c.fredApiKey) ==> r == Fetched(None, [])
    ensures Configured(c.fredApiKey) ==> r.events == [Call(Observations(seriesId, start))]
    ensures r.value.Some? ==> reply.Answered? && reply.body.observations.Some?
    ensures r.value.Some? ==> forall row :: row in r.value.value ==> row.seriesId == seriesId
  {
    if !Configured(c.fredApiKey) then Fetched(None, [])
    else Fetched(if reply.Answered? then FredRows(reply.body, seriesId) else None, [Call(Observations(seriesId, start))])
  }

  // ---------------------------------------------------------------------------
  // Realized volatility: labelling and row dropping
  // ---------------------------------------------------------------------------

  /** One row of the frame `calculate_realized_volatility` returns. */
  datatype VolRow = VolRow(symbol: Value, date: Value, value: real, volType: string, period: int)

  /** The annualized rolling deviation at row t (None where pandas produces NaN). */
  function SigmaAt(sigma: seq<Option<real>>, t: nat): Option<real> {
    if t < |sigma| then sigma[t] else None
  }

  /** Rows from `from` on that survive `dropna()`: a row needs a symbol, a date and a
      deviation, and rows before `window` have none (the first return is undefined). */
  function Labelled(symbols: seq<Value>, dates: seq<Value>, sigma: seq<Option<real>>, window: int, from: nat): (rows: seq<VolRow>)
    requires |dates| == |symbols| && from <= |symbols|
    ensures forall r :: r in rows ==> r.volType == "Realized" && r.period == window
    ensures |rows| <= |symbols| - (if window > from then (if window < |symbols| then window else |symbols|) else from)
    ensures forall r :: r in rows ==>
      (exists t :: from <= t < |symbols| && window <= t &&
                   symbols[t] == r.symbol && dates[t] == r.date && SigmaAt(sigma, t) == Some(r.value))
    ensures forall r :: r in rows ==> r.symbol != VNone && r.date != VNone
    decreases |symbols| - from
  {
    if from == |symbols| then []
    else
      var keep := window <= from && SigmaAt(sigma, from).Some? && symbols[from] != VNone && dates[from] != VNone;
      var head := if keep then [VolRow(symbols[from], dates[from], SigmaAt(sigma, from).value, "Realized", window)] else [];
      head + Labelled(symbols, dates, sigma, window, from + 1)
  }

  /** Every row from `from` on that has a symbol, a date and a deviation, at or after the
      window, survives `dropna()`. */
  lemma {:induction false} LabelledComplete(symbols: seq<Value>, dates: seq<Value>, sigma: seq<Option<real>>,
                                            window: int, from: nat, t: nat)
    requires |dates| == |symbols| && from <= t < |symbols|
    requires window <= t && SigmaAt(sigma, t).Some? && symbols[t] != VNone && dates[t] != VNone
    ensures VolRow(symbols[t], dates[t], SigmaAt(sigma, t).value, "Realized", window) in
      Labelled(symbols, dates, sigma, window, from)
    decreases t - from
  {
    if from < t {
      LabelledComplete(symbols, dates, sigma, window, from + 1, t);
    }
  }

  /** `calculate_realized_volatility(prices, window)`, with the numeric deviations given as
      `sigma`. Inside its try, a negative window makes `rolling` raise; a missing
      `close_price`, `symbol` or `date` column raises KeyError; and a repeated `close_price`
      makes the `returns` assignment raise, since a two-column frame cannot fill one column.
      Each of these gives no rows. A repeated `symbol` or `date` label gives no rows here as
      well, which is not what pandas does. */
  function RealizedVolatility(prices: Frame, window: int, sigma: seq<Option<real>>): (rows: seq<VolRow>)
    requires prices.WellFormed()
    ensures forall r :: r in rows ==> r.volType == "Realized" && r.period == window
    ensures |rows| <= if 0 <= window < prices.Rows() then prices.Rows() - window else 0
    ensures var labels := CountNamed(prices.columns, "close_price") == 1 && CountNamed(prices.columns, "symbol") == 1
                          && CountNamed(prices.columns, "date") == 1;
      if window >= 0 && labels
      then rows == Labelled(CellsNamed(prices.columns, "symbol"), CellsNamed(prices.columns, "date"), sigma, window, 0)
      else rows == []
  {
    if window < 0 then []
    else
      match (SingleColumn(prices, "close_price"), SingleColumn(prices, "symbol"), SingleColumn(prices, "date"))
      case (Ok(_), Ok(symbols), Ok(dates)) => Labelled(symbols, dates, sigma, window, 0)
      case _ => []
  }

  // ---------------------------------------------------------------------------
  // Rate-limited batch runner
  // ---------------------------------------------------------------------------

  /** The pause after item i of n: `if i < total - 1 and delay > 0`. */
  function Gap(i: nat, n: nat, delay: real): seq<Event> {
    if i + 1 < n && delay > 0.0 then [Sleep(delay)] else []
  }

  function SleepCount(t: seq<Event>): nat {
    if t == [] then 0 else (if t[0].Sleep? then 1 else 0) + SleepCount(t[1..])
  }

  /** The provider and batch calls of a trace, in order. */
  function Requests(t: seq<Event>): seq<Request> {
    if t == [] then [] else (if t[0].Call? then [t[0].request] else []) + Requests(t[1..])
  }

  lemma {:induction false} SleepCountAppend(a: seq<Event>, b: seq<Event>)
    ensures SleepCount(a + b) == SleepCount(a) + SleepCount(b)
  {
    if a != [] {
      assert (a + b)[1..] == a[1..] + b;
      SleepCountAppend(a[1..], b);
    } else {
      assert a + b == b;
    }
  }

  lemma {:induction false} RequestsAppend(a: seq<Event>, b: seq<Event>)
    ensures Requests(a + b) == Requests(a) + Requests(b)
  {
    if a != [] {
      assert (a + b)[1..] == a[1..] + b;
      RequestsAppend(a[1..], b);
    } else {
      assert a + b == b;
    }
  }

  /** What `results[symbol]` is set to: the returned value, or None when the call raised. */
  function ReplyResult<T>(r: Reply<Option<T>>): Option<T> {
    if r.Answered? then r.body else None
  }

  /** The results dictionary after the first |symbols| items. */
  function BatchResults<T>(symbols: seq<string>, replies: seq<Reply<Option<T>>>): map<string, Option<T>>
    requires |replies| == |symbols|
  {
    if symbols == [] then map[]
    else BatchResults(symbols[..|symbols| - 1], replies[..|replies| - 1])[symbols[|symbols| - 1] := ReplyResult(replies[|replies| - 1])]
  }

  /** `sum(1 for result in results.values() if result is not None)` */
  function SuccessCount<T>(results: map<string, Option<T>>): nat {
    |set s | s in results && results[s].Some?|
  }

  /** The trace of the first k items of a batch of |symbols|. */
  function BatchTrace(symbols: seq<string>, k: nat, delay: real): seq<Event>
    requires k <= |symbols|
  {
    if k == 0 then [] else BatchTrace(symbols, k - 1, delay) + [Call(CollectionCall(symbols[k - 1]))] + Gap(k - 1, |symbols|, delay)
  }

  /** `batch_collect_with_delay(symbols, collection_func, delay)`; `replies[i]` is what the
      collection function did for item i. Also returns the success count it logs. */
  method BatchCollectWithDelay<T>(symbols: seq<string>, replies: seq<Reply<Option<T>>>, delay: real)
    returns (results: map<string, Option<T>>, successful: nat, trace: seq<Event>)
    requires |replies| == |symbols|
    ensures results == BatchResults(symbols, replies)
    ensures successful == SuccessCount(results)
    ensures trace == BatchTrace(symbols, |symbols|, delay)
  {
    results := map[];
    trace := [];
    var total := |symbols|;
    for i := 0 to total
      invariant results == BatchResults(symbols[..i], replies[..i])
      invariant trace == BatchTrace(symbols, i, delay)
    {
      trace := trace + [Call(CollectionCall(symbols[i]))];
      if replies[i].Answered? {
        results := results[symbols[i] := replies[i].body];
      } else {
        results := results[symbols[i] := None];
      }
      if i < total - 1 && delay > 0.0 {
        trace := trace + [Sleep(delay)];
      }
      assert symbols[..i + 1][..i] == symbols[..i];
      assert replies[..i + 1][..i] == replies[..i];
    }
    assert symbols[..total] == symbols;
    assert replies[..total] == replies;
    successful := |set s | s in results && results[s].Some?|;
  }

  /** Every symbol gets an entry, and nothing else does. */
  lemma {:induction false} BatchResultsKeys<T>(symbols: seq<string>, replies: seq<Reply<Option<T>>>)
    requires |replies| == |symbols|
    ensures forall s :: s in BatchResults(symbols, replies) <==> s in symbols
  {
    if symbols != [] {
      var n := |symbols|;
      BatchResultsKeys(symbols[..n - 1], replies[..n - 1]);
      assert symbols == symbols[..n - 1] + [symbols[n - 1]];
    }
  }

  /** The entry for a symbol is what its last occurrence produced: the call's result, or
      None when that call raised. */
  lemma {:induction false} BatchLastOccurrenceWins<T>(symbols: seq<string>, replies: seq<Reply<Option<T>>>, i: nat)
    requires |replies| == |symbols| && i < |symbols|
    requires forall j :: i < j < |symbols| ==> symbols[j] != symbols[i]
    ensures symbols[i] in BatchResults(symbols, replies) && BatchResults(symbols, replies)[symbols[i]] == ReplyResult(replies[i])
  {
    var n := |symbols|;
    if i < n - 1 {
      BatchLastOccurrenceWins(symbols[..n - 1], replies[..n - 1], i);
      assert symbols[n - 1] != symbols[i];
    }
  }

  lemma {:induction false} DistinctBound(symbols: seq<string>)
    ensures |set s | s in symbols| <= |symbols|
  {
    if symbols != [] {
      var n := |symbols|;
      var prefix := symbols[..n - 1];
      DistinctBound(prefix);
      assert (set s | s in symbols) == (set s | s in prefix) + {symbols[n - 1]} by {
        assert symbols == prefix + [symbols[n - 1]];
      }
    }
  }

  lemma {:induction false} SubsetSize<T>(a: set<T>, b: set<T>)
    requires a <= b
    ensures |a| <= |b|
    decreases |a|
  {
    if a != {} {
      var x :| x in a;
      SubsetSize(a - {x}, b - {x});
    }
  }

  /** The success count never exceeds the number of distinct symbols. */
  lemma SuccessCountBound<T>(symbols: seq<string>, replies: seq<Reply<Option<T>>>)
    requires |replies| == |symbols|
    ensures SuccessCount(BatchResults(symbols, replies)) <= |set s | s in symbols| <= |symbols|
  {
    var results := BatchResults(symbols, replies);
    BatchResultsKeys(symbols, replies);
    SubsetSize(set s | s in results && results[s].Some?, set s | s in symbols);
    DistinctBound(symbols);
  }

  /** A symbol listed twice whose calls both succeed counts once. */
  lemma DuplicateSymbolCountsOnce<T>(x: T, y: T)
    ensures SuccessCount(BatchResults(["AAPL", "AAPL"], [Answered(Some(x)), Answered(Some(y))])) == 1
  {
    var results := BatchResults(["AAPL", "AAPL"], [Answered(Some(x)), Answered(Some(y))]);
    assert ["AAPL", "AAPL"][..1] == ["AAPL"];
    assert [Answered(Some(x)), Answered(Some(y))][..1] == [Answered(Some(x))];
    assert BatchResults(["AAPL"], [Answered(Some(x))]) == map["AAPL" := Some(x)];
    assert results == map["AAPL" := Some(y)];
    assert (set s | s in results && results[s].Some?) == {"AAPL"};
  }

  /** The batch pauses between consecutive items only: n - 1 times when delay > 0. */
  lemma {:induction false} BatchSleeps(symbols: seq<string>, k: nat, delay: real)
    requires k <= |symbols|
    ensures SleepCount(BatchTrace(symbols, k, delay)) ==
      if delay > 0.0 && k > 0 then (if k < |symbols| then k else k - 1) else 0
  {
    if k > 0 {
      BatchSleeps(symbols, k - 1, delay);
      var prev := BatchTrace(symbols, k - 1, delay);
      var call := [Call(CollectionCall(symbols[k - 1]))];
      SleepCountAppend(prev, call);
      SleepCountAppend(prev + call, Gap(k - 1, |symbols|, delay));
      assert SleepCount(call) == 0 by { assert call[1..] == []; }
      assert SleepCount(Gap(k - 1, |symbols|, delay)) == if k < |symbols| && delay > 0.0 then 1 else 0 by {
        assert [Sleep(delay)][1..] == [];
      }
    }
  }

  /** Items are called in input order, once each. */
  lemma {:induction false} BatchCallsInOrder(symbols: seq<string>, k: nat, delay: real)
    requires k <= |symbols|
    ensures Requests(BatchTrace(symbols, k, delay)) == seq(k, i requires 0 <= i < k => CollectionCall(symbols[i]))
  {
    if k > 0 {
      BatchCallsInOrder(symbols, k - 1, delay);
      var prev := BatchTrace(symbols, k - 1, delay);
      RequestsAppend(prev, [Call(CollectionCall(symbols[k - 1]))]);
      RequestsAppend(prev + [Call(CollectionCall(symbols[k - 1]))], Gap(k - 1, |symbols|, delay));
    }
  }

  /** No pause follows the last item. */
  lemma BatchEndsWithCall(symbols: seq<string>, delay: real)
    requires |symbols| > 0
    ensures var t := BatchTrace(symbols, |symbols|, delay); t[|t| - 1] == Call(CollectionCall(symbols[|symbols| - 1]))
  {
  }

  // ---------------------------------------------------------------------------
  // Constant tables
  // ---------------------------------------------------------------------------

  /** `get_recommended_symbols()`: (symbol, asset type) pairs. */
  const RecommendedSymbols: seq<(string, string)> := [
    ("SPY", "ETF"), ("QQQ", "ETF"), ("IWM", "ETF"), ("VTI", "ETF"),
    ("XLK", "ETF"), ("XLF", "ETF"), ("XLE", "ETF"), ("XLV", "ETF"), ("XLI", "ETF"),
    ("XLY", "ETF"), ("XLP", "ETF"), ("XLU", "ETF"), ("XLRE", "ETF"), ("XLB", "ETF"),
    ("AAPL", "Stock"), ("MSFT", "Stock"), ("GOOGL", "Stock"), ("AMZN", "Stock"), ("TSLA", "Stock"),
    ("NVDA", "Stock"), ("JPM", "Stock"), ("JNJ", "Stock"), ("V", "Stock"), ("PG", "Stock"),
    ("TLT", "ETF"), ("SHY", "ETF"), ("GLD", "ETF"), ("VNQ", "ETF")]

  datatype IndicatorMeta = IndicatorMeta(name: string, unit: string, frequency: string, source: string)

  /** `get_fred_indicators()`, in the dictionary's insertion order. */
  const FredIndicators: seq<(string, IndicatorMeta)> := [
    ("FEDFUNDS", IndicatorMeta("Federal Funds Rate", "Percent", "Monthly", "FRED")),
    ("UNRATE", IndicatorMeta("Unemployment Rate", "Percent", "Monthly", "FRED")),
    ("CPIAUCSL", IndicatorMeta("Consumer Price Index for All Urban Consumers", "Index 1982-84=100", "Monthly", "FRED")),
    ("GDP", IndicatorMeta("Gross Domestic Product", "Billions of Dollars", "Quarterly", "FRED")),
    ("GS10", IndicatorMeta("10-Year Treasury Constant Maturity Rate", "Percent", "Daily", "FRED")),
    ("DGS2", IndicatorMeta("2-Year Treasury Constant Maturity Rate", "Percent", "Daily", "FRED")),
    ("VIXCLS", IndicatorMeta("CBOE Volatility Index: VIX", "Index", "Daily", "FRED")),
    ("UMCSENT", IndicatorMeta("University of Michigan: Consumer Sentiment", "Index 1966:Q1=100", "Monthly", "FRED"))]

  lemma RecommendedSymbolsShape()
    ensures |RecommendedSymbols| == 28
    ensures forall i :: 0 <= i < |RecommendedSymbols| ==> RecommendedSymbols[i].1 == "ETF" || RecommendedSymbols[i].1 == "Stock"
  {
  }

  lemma FredIndicatorsShape()
    ensures |FredIndicators| == 8
    ensures forall i :: 0 <= i < |FredIndicators| ==> FredIndicators[i].1.source == "FRED"
    ensures forall i, j :: 0 <= i < j < |FredIndicators| ==> FredIndicators[i].0 != FredIndicators[j].0
  {
  }
}
