/** What a run of `run_comprehensive_collection` in which nothing escapes has done
    (data_setup/pipelines/data_collection_pipeline.py): how many items it counts as
    successful, which provider calls it makes and in which order, and where it sleeps.
    These are consequences of the run specification in module Pipeline. */
module PipelineRuns {
  import opened Scalars
  import opened DataCollection
  import opened Database
  import opened Pipeline

  /** `collect_and_insert_asset` returns True: the dictionary was built, and either its
      row was written or the two-year history gave a frame. */
  predicate ItemSucceeds(x: Collected) {
    x.asset.Ok? && (x.row.Some? || x.priced)
  }

  /** How many of the first k items succeed. */
  function Succeeded(xs: seq<Collected>, k: nat): (n: nat)
    requires k <= |xs|
    ensures n <= k
  {
    if k == 0 then 0 else Succeeded(xs, k - 1) + (if ItemSucceeds(xs[k - 1]) then 1 else 0)
  }

  function Calls(rs: seq<Request>): (t: seq<Event>)
    ensures |t| == |rs| && forall i :: 0 <= i < |rs| ==> t[i] == Call(rs[i])
  {
    seq(|rs|, i requires 0 <= i < |rs| => Call(rs[i]))
  }

  /** A trace of calls only holds those requests and no pause. */
  lemma {:induction false} CallsOnly(rs: seq<Request>)
    ensures Requests(Calls(rs)) == rs && SleepCount(Calls(rs)) == 0
  {
    if rs != [] {
      CallsOnly(rs[1..]);
      assert Calls(rs)[1..] == Calls(rs[1..]);
    }
  }

  /** The lookups of one asset: the overview only when an Alpha Vantage key is set, the
      yfinance info always, whatever the overview gave. */
  function LookupRequests(c: FinancialDataCollector, symbol: string): seq<Request> {
    (if Configured(c.alphaVantageKey) then [Overview(symbol)] else []) + [Info(symbol)]
  }

  /** Both providers are consulted for every asset. */
  lemma CollectLooksUpBoth(c: FinancialDataCollector, symbol: string, assetType: string, feed: AssetFeed)
    requires feed.Valid()
    ensures Collect(c, symbol, assetType, feed).lookups == Calls(LookupRequests(c, symbol))
  {
    var x := Collect(c, symbol, assetType, feed);
    if Configured(c.alphaVantageKey) {
      assert x.lookups == [Call(Overview(symbol)), Call(Info(symbol))];
    } else {
      assert x.lookups == [Call(Info(symbol))];
    }
  }

  predicate LookedUp(c: FinancialDataCollector, xs: seq<Collected>) {
    forall i :: 0 <= i < |xs| ==> xs[i].lookups == Calls(LookupRequests(c, xs[i].symbol))
  }

  lemma CollectAllLookedUp(c: FinancialDataCollector, items: seq<(string, string)>, feeds: seq<AssetFeed>)
    requires |feeds| == |items| && FeedsValid(feeds)
    ensures LookedUp(c, CollectAll(c, items, feeds))
    ensures forall i :: 0 <= i < |items| ==> CollectAll(c, items, feeds)[i].symbol == items[i].0
  {
    var xs := CollectAll(c, items, feeds);
    forall i | 0 <= i < |items|
      ensures xs[i].lookups == Calls(LookupRequests(c, xs[i].symbol)) && xs[i].symbol == items[i].0
    {
      CollectAllAt(c, items, feeds, i);
      CollectLooksUpBoth(c, items[i].0, items[i].1, feeds[i]);
    }
  }

  /** The requests of one item that nothing escaped: the lookups, the two-year history,
      and the one-year history exactly when the item succeeded and volatility is on. */
  function ItemRequests(c: FinancialDataCollector, x: Collected, includeVolatility: bool): seq<Request> {
    LookupRequests(c, x.symbol) + [History(x.symbol, "2y")]
    + (if ItemSucceeds(x) && includeVolatility then [History(x.symbol, "1y")] else [])
  }

  function RunRequests(c: FinancialDataCollector, xs: seq<Collected>, includeVolatility: bool, k: nat): seq<Request>
    requires k <= |xs|
  {
    if k == 0 then [] else RunRequests(c, xs, includeVolatility, k - 1) + ItemRequests(c, xs[k - 1], includeVolatility)
  }

  /** One item that nothing escaped: its calls, its success flag, and that it ends on a call. */
  lemma ItemTrace(c: FinancialDataCollector, st: DbState, x: Collected, includeVolatility: bool)
    requires x.Shaped() && x.lookups == Calls(LookupRequests(c, x.symbol))
    requires ProcessItem(st, x, includeVolatility).step.escaped.None?
    ensures var r := ProcessItem(st, x, includeVolatility);
      && r.step.events == Calls(ItemRequests(c, x, includeVolatility))
      && r.success == ItemSucceeds(x)
  {
    var asset := AssetStep(st, x);
    assert x.asset.Ok?;
    var rs := ItemRequests(c, x, includeVolatility);
    var base := LookupRequests(c, x.symbol) + [History(x.symbol, "2y")];
    assert asset.step.events == Calls(base);
    if ItemSucceeds(x) && includeVolatility {
      assert rs == base + [History(x.symbol, "1y")];
    } else {
      assert rs == base;
    }
  }

  /** The k-th item of a run that nothing escaped adds its calls, then the pause. */
  lemma RunStep(c: FinancialDataCollector, st: DbState, xs: seq<Collected>, includeVolatility: bool, delay: real, k: nat)
    requires 0 < k <= |xs| && AllShaped(xs) && LookedUp(c, xs)
    requires RunItems(st, xs, includeVolatility, delay, k).escaped.None?
    ensures var prev := RunItems(st, xs, includeVolatility, delay, k - 1);
      var run := RunItems(st, xs, includeVolatility, delay, k);
      && prev.escaped.None?
      && run.trace == prev.trace + Calls(ItemRequests(c, xs[k - 1], includeVolatility)) + Gap(k - 1, |xs|, delay)
      && run.successful == prev.successful + (if ItemSucceeds(xs[k - 1]) then 1 else 0)
  {
    var prev := RunItems(st, xs, includeVolatility, delay, k - 1);
    assert prev.escaped.None?;
    ItemTrace(c, prev.state, xs[k - 1], includeVolatility);
  }

  /** A run that nothing escaped counts the items that succeeded. */
  lemma {:induction false} RunCountsSuccesses(c: FinancialDataCollector, st: DbState, xs: seq<Collected>, includeVolatility: bool, delay: real, k: nat)
    requires k <= |xs| && AllShaped(xs) && LookedUp(c, xs)
    requires RunItems(st, xs, includeVolatility, delay, k).escaped.None?
    ensures RunItems(st, xs, includeVolatility, delay, k).successful == Succeeded(xs, k)
  {
    if k > 0 {
      RunStep(c, st, xs, includeVolatility, delay, k);
      RunCountsSuccesses(c, st, xs, includeVolatility, delay, k - 1);
    }
  }

  /** A run that nothing escaped made, item by item, the calls each item calls for. */
  lemma {:induction false} RunRequestsInOrder(c: FinancialDataCollector, st: DbState, xs: seq<Collected>, includeVolatility: bool, delay: real, k: nat)
    requires k <= |xs| && AllShaped(xs) && LookedUp(c, xs)
    requires RunItems(st, xs, includeVolatility, delay, k).escaped.None?
    ensures Requests(RunItems(st, xs, includeVolatility, delay, k).trace) == RunRequests(c, xs, includeVolatility, k)
  {
    if k > 0 {
      RunStep(c, st, xs, includeVolatility, delay, k);
      RunRequestsInOrder(c, st, xs, includeVolatility, delay, k - 1);
      var prev := RunItems(st, xs, includeVolatility, delay, k - 1).trace;
      var events := Calls(ItemRequests(c, xs[k - 1], includeVolatility));
      var gap := Gap(k - 1, |xs|, delay);
      CallsOnly(ItemRequests(c, xs[k - 1], includeVolatility));
      RequestsAppend(prev, events);
      RequestsAppend(prev + events, gap);
      assert Requests(gap) == [] by {
        assert [Sleep(delay)][1..] == [];
      }
    }
  }

  /** A run that nothing escaped paused between consecutive items only, and only when
      the delay is positive: n - 1 pauses for n items. */
  lemma {:induction false} RunSleeps(c: FinancialDataCollector, st: DbState, xs: seq<Collected>, includeVolatility: bool, delay: real, k: nat)
    requires k <= |xs| && AllShaped(xs) && LookedUp(c, xs)
    requires RunItems(st, xs, includeVolatility, delay, k).escaped.None?
    ensures SleepCount(RunItems(st, xs, includeVolatility, delay, k).trace) ==
      if delay > 0.0 && k > 0 then (if k < |xs| then k else k - 1) else 0
  {
    if k > 0 {
      RunStep(c, st, xs, includeVolatility, delay, k);
      RunSleeps(c, st, xs, includeVolatility, delay, k - 1);
      var prev := RunItems(st, xs, includeVolatility, delay, k - 1).trace;
      var events := Calls(ItemRequests(c, xs[k - 1], includeVolatility));
      var gap := Gap(k - 1, |xs|, delay);
      CallsOnly(ItemRequests(c, xs[k - 1], includeVolatility));
      SleepCountAppend(prev, events);
      SleepCountAppend(prev + events, gap);
      assert SleepCount(gap) == (if k < |xs| && delay > 0.0 then 1 else 0) by {
        assert [Sleep(delay)][1..] == [];
      }
    }
  }

  /** A run that nothing escaped ends on a provider call, never on a pause. */
  lemma RunEndsWithCall(c: FinancialDataCollector, st: DbState, xs: seq<Collected>, includeVolatility: bool, delay: real)
    requires |xs| > 0 && AllShaped(xs) && LookedUp(c, xs)
    requires RunItems(st, xs, includeVolatility, delay, |xs|).escaped.None?
    ensures var t := RunItems(st, xs, includeVolatility, delay, |xs|).trace; |t| > 0 && t[|t| - 1].Call?
  {
    RunStep(c, st, xs, includeVolatility, delay, |xs|);
  }
}
