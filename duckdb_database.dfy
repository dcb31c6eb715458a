/**
 The adapter class `DuckdbDatabase`: converts platform records to rows, runs the
 save protocol (row MERGE, overview read, re-count, overview upsert), loads
 ranges, deletes series and lists overviews. The bar and tick paths share one
 generic protocol, parameterised by the series key type.
 */
module Duckdb {

  import opened Wrappers
  import opened Tables
  import opened Reconcile
  import opened Store
  import opened Trader

  /** The body of `save_bar_data` / `save_tick_data` once the records are rows: sort the batch by
      timestamp, MERGE it, then write the overview of the first row's series. */
  method SaveSeries<K(==), P(==)>(tables: SeriesStore<K, P>, batch: seq<Row<K, P>>)
    requires |batch| > 0
    modifies tables
    ensures tables.Snapshot() == Saved(old(tables.Snapshot()), batch)
    ensures SingleKey(batch, batch[0].key) && old(Consistent(tables.Snapshot())) ==> Consistent(tables.Snapshot())
  {
    ghost var before := tables.Snapshot();
    var key := batch[0].key;
    var df := SortByTime(batch);
    tables.MergeRows(df);
    var row := tables.FindOverview(key);
    var data: Overview;
    if row.None? {
      // new contract
      data := Overview(|batch|, df[0].time, df[|df| - 1].time);
    } else {
      // existing contract: re-count the stored rows
      var count := tables.CountRows(key);
      data := Overview(count, Min(df[0].time, row.value.start), Max(df[|df| - 1].time, row.value.end));
    }
    tables.UpsertOverview(key, data);
    if SingleKey(batch, key) && Consistent(before) {
      SavePreservesConsistent(before, batch, key);
    }
  }

  /** The body of `delete_bar_data` / `delete_tick_data`: count, then delete rows and overview. */
  method DeleteSeries<K(==), P(==)>(tables: SeriesStore<K, P>, key: K) returns (count: nat)
    modifies tables
    ensures count == CountKey(old(tables.rows), key)
    ensures tables.Snapshot() == Deleted(old(tables.Snapshot()), key)
    ensures old(Consistent(tables.Snapshot())) ==> Consistent(tables.Snapshot())
  {
    ghost var before := tables.Snapshot();
    count := tables.CountRows(key);
    tables.DeleteRows(key);
    tables.DeleteOverview(key);
    if Consistent(before) {
      DeletePreservesConsistent(before, key);
    }
  }

  class DuckdbDatabase {
    const bars: SeriesStore<BarKey, BarFields>
    const ticks: SeriesStore<TickKey, TickFields>

    /** Opening the catalogue: the four tables hold whatever it already stores. */
    constructor (storedBars: State<BarKey, BarFields>, storedTicks: State<TickKey, TickFields>)
      ensures fresh(bars) && fresh(ticks)
      ensures bars.Snapshot() == storedBars
      ensures ticks.Snapshot() == storedTicks
    {
      bars := new SeriesStore(storedBars);
      ticks := new SeriesStore(storedTicks);
    }

    // -------------------------------------------------------------------------
    // Saving

    method SaveBarData(bs: seq<BarData>) returns (ok: bool)
      requires |bs| > 0 && HasIntervals(bs)
      modifies bars
      ensures ok
      ensures bars.Snapshot() == Saved(old(bars.Snapshot()), BarRows(bs))
      ensures SingleKey(BarRows(bs), BarRow(bs[0]).key) && old(Consistent(bars.Snapshot())) ==> Consistent(bars.Snapshot())
      ensures ticks.rows == old(ticks.rows) && ticks.overviews == old(ticks.overviews)
    {
      var barData: seq<Row<BarKey, BarFields>> := [];
      for i := 0 to |bs|
        invariant |barData| == i
        invariant forall j :: 0 <= j < i ==> barData[j] == BarRow(bs[j])
      {
        barData := barData + [BarRow(bs[i])];
      }
      assert barData == BarRows(bs);
      SaveSeries(bars, barData);
      ok := true;
    }

    method SaveTickData(ts: seq<TickData>) returns (ok: bool)
      requires |ts| > 0
      modifies ticks
      ensures ok
      ensures ticks.Snapshot() == Saved(old(ticks.Snapshot()), TickRows(ts))
      ensures SingleKey(TickRows(ts), TickRow(ts[0]).key) && old(Consistent(ticks.Snapshot())) ==> Consistent(ticks.Snapshot())
      ensures bars.rows == old(bars.rows) && bars.overviews == old(bars.overviews)
    {
      var tickData: seq<Row<TickKey, TickFields>> := [];
      for i := 0 to |ts|
        invariant |tickData| == i
        invariant forall j :: 0 <= j < i ==> tickData[j] == TickRow(ts[j])
      {
        tickData := tickData + [TickRow(ts[i])];
      }
      assert tickData == TickRows(ts);
      SaveSeries(ticks, tickData);
      ok := true;
    }

    // -------------------------------------------------------------------------
    // Loading

    /** Exactly the stored bars of the series with `start <= datetime <= end`, ascending by time,
        each tagged with the "DB" gateway; nothing for an unknown series or an empty range. */
    method LoadBarData(symbol: string, exchange: Exchange, interval: Interval, start: int, end: int)
      returns (result: seq<BarData>)
      ensures HasIntervals(result)
      ensures multiset(BarRows(result)) == multiset(Select(bars.rows, BarKey(symbol, exchange, interval), start, end))
      ensures forall i :: 0 <= i < |result| ==>
                && result[i].symbol == symbol && result[i].exchange == exchange && result[i].interval == Some(interval)
                && result[i].gatewayName == DbGateway && start <= result[i].datetime <= end
      ensures forall i :: 0 < i < |result| ==> result[i - 1].datetime <= result[i].datetime
      ensures CountKey(bars.rows, BarKey(symbol, exchange, interval)) == 0 || start > end ==> result == []
    {
      var key := BarKey(symbol, exchange, interval);
      var data := bars.SelectRange(key, start, end);
      result := [];
      for i := 0 to |data|
        invariant |result| == i
        invariant forall j :: 0 <= j < i ==> result[j] == LoadedBar(symbol, exchange, interval, data[j])
      {
        result := result + [LoadedBar(symbol, exchange, interval, data[i])];
      }
      assert BarRows(result) == data;
      if CountKey(bars.rows, key) == 0 || start > end {
        SelectEmpty(bars.rows, key, start, end);
      }
    }

    /** Exactly the stored ticks of the series with `start <= datetime <= end`, ascending by time,
        each tagged with the "DB" gateway; nothing for an unknown series or an empty range. */
    method LoadTickData(symbol: string, exchange: Exchange, start: int, end: int)
      returns (result: seq<TickData>)
      ensures multiset(TickRows(result)) == multiset(Select(ticks.rows, TickKey(symbol, exchange), start, end))
      ensures forall i :: 0 <= i < |result| ==>
                && result[i].symbol == symbol && result[i].exchange == exchange
                && result[i].gatewayName == DbGateway && start <= result[i].datetime <= end
      ensures forall i :: 0 < i < |result| ==> result[i - 1].datetime <= result[i].datetime
      ensures CountKey(ticks.rows, TickKey(symbol, exchange)) == 0 || start > end ==> result == []
    {
      var key := TickKey(symbol, exchange);
      var data := ticks.SelectRange(key, start, end);
      result := [];
      for i := 0 to |data|
        invariant |result| == i
        invariant forall j :: 0 <= j < i ==> result[j] == LoadedTick(symbol, exchange, data[j])
      {
        result := result + [LoadedTick(symbol, exchange, data[i])];
      }
      assert TickRows(result) == data;
      if CountKey(ticks.rows, key) == 0 || start > end {
        SelectEmpty(ticks.rows, key, start, end);
      }
    }

    // -------------------------------------------------------------------------
    // Deleting

    method DeleteBarData(symbol: string, exchange: Exchange, interval: Interval) returns (count: nat)
      modifies bars
      ensures count == CountKey(old(bars.rows), BarKey(symbol, exchange, interval))
      ensures bars.Snapshot() == Deleted(old(bars.Snapshot()), BarKey(symbol, exchange, interval))
      ensures CountKey(bars.rows, BarKey(symbol, exchange, interval)) == 0
      ensures BarKey(symbol, exchange, interval) !in bars.overviews
      ensures old(Consistent(bars.Snapshot())) ==> Consistent(bars.Snapshot())
      ensures ticks.rows == old(ticks.rows) && ticks.overviews == old(ticks.overviews)
    {
      var key := BarKey(symbol, exchange, interval);
      DeleteClears(bars.Snapshot(), key);
      count := DeleteSeries(bars, key);
    }

    method DeleteTickData(symbol: string, exchange: Exchange) returns (count: nat)
      modifies ticks
      ensures count == CountKey(old(ticks.rows), TickKey(symbol, exchange))
      ensures ticks.Snapshot() == Deleted(old(ticks.Snapshot()), TickKey(symbol, exchange))
      ensures CountKey(ticks.rows, TickKey(symbol, exchange)) == 0
      ensures TickKey(symbol, exchange) !in ticks.overviews
      ensures old(Consistent(ticks.Snapshot())) ==> Consistent(ticks.Snapshot())
      ensures bars.rows == old(bars.rows) && bars.overviews == old(bars.overviews)
    {
      var key := TickKey(symbol, exchange);
      DeleteClears(ticks.Snapshot(), key);
      count := DeleteSeries(ticks, key);
    }

    // -------------------------------------------------------------------------
    // Overview listing

    /** One record per stored bar overview, each carrying its series key and summary. */
    method GetBarOverview() returns (result: seq<BarOverview>)
      ensures |result| == |bars.overviews|
      ensures forall i :: 0 <= i < |result| ==>
                BarOverviewKey(result[i]) in bars.overviews && bars.overviews[BarOverviewKey(result[i])] == BarSummary(result[i])
      ensures forall k :: k in bars.overviews ==> exists i :: 0 <= i < |result| && BarOverviewKey(result[i]) == k
      ensures forall i, j :: 0 <= i < j < |result| ==> BarOverviewKey(result[i]) != BarOverviewKey(result[j])
    {
      var data := bars.AllOverviews();
      result := [];
      for i := 0 to |data|
        invariant |result| == i
        invariant forall j :: 0 <= j < i ==> result[j] == LoadedBarOverview(data[j].0, data[j].1)
      {
        result := result + [LoadedBarOverview(data[i].0, data[i].1)];
      }
      forall k | k in bars.overviews ensures exists i :: 0 <= i < |result| && BarOverviewKey(result[i]) == k {
        var i :| 0 <= i < |data| && data[i].0 == k;
        assert BarOverviewKey(result[i]) == k;
      }
    }

    /** One record per stored tick overview, each carrying its series key and summary. */
    method GetTickOverview() returns (result: seq<TickOverview>)
      ensures |result| == |ticks.overviews|
      ensures forall i :: 0 <= i < |result| ==>
                TickOverviewKey(result[i]) in ticks.overviews && ticks.overviews[TickOverviewKey(result[i])] == TickSummary(result[i])
      ensures forall k :: k in ticks.overviews ==> exists i :: 0 <= i < |result| && TickOverviewKey(result[i]) == k
      ensures forall i, j :: 0 <= i < j < |result| ==> TickOverviewKey(result[i]) != TickOverviewKey(result[j])
    {
      var data := ticks.AllOverviews();
      result := [];
      for i := 0 to |data|
        invariant |result| == i
        invariant forall j :: 0 <= j < i ==> result[j] == LoadedTickOverview(data[j].0, data[j].1)
      {
        result := result + [LoadedTickOverview(data[i].0, data[i].1)];
      }
      forall k | k in ticks.overviews ensures exists i :: 0 <= i < |result| && TickOverviewKey(result[i]) == k {
        var i :| 0 <= i < |data| && data[i].0 == k;
        assert TickOverviewKey(result[i]) == k;
      }
    }
  }
}
