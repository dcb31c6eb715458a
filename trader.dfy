/**
 The trading-platform records the adapter reads and writes, and their mapping to
 and from the stored rows. Exchange and interval are enumerations in the platform;
 the adapter stores their `value` strings and rebuilds them from those strings,
 which here is the identity on the wrapped value.
 */
module Trader {

  import opened Wrappers
  import opened Tables

  datatype Exchange = Exchange(value: string)

  datatype Interval = Interval(value: string)

  /** The gateway tag every record loaded from the database carries. */
  const DbGateway: string := "DB"

  /** The FLOAT columns of the bar table. */
  datatype BarFields = BarFields(
    volume: real, turnover: real, openInterest: real,
    openPrice: real, highPrice: real, lowPrice: real, closePrice: real)

  /** Five levels of one side of the order book. */
  datatype Depth = Depth(level1: real, level2: real, level3: real, level4: real, level5: real)

  /** The non-key columns of the tick table. */
  datatype TickFields = TickFields(
    name: string,
    volume: real, turnover: real, openInterest: real,
    lastPrice: real, lastVolume: real, limitUp: real, limitDown: real,
    openPrice: real, highPrice: real, lowPrice: real, preClose: real,
    bidPrice: Depth, askPrice: Depth, bidVolume: Depth, askVolume: Depth,
    localtime: Option<int>)

  /** The series key of the bar tables. */
  datatype BarKey = BarKey(symbol: string, exchange: Exchange, interval: Interval)

  /** The series key of the tick tables. */
  datatype TickKey = TickKey(symbol: string, exchange: Exchange)

  datatype BarData = BarData(
    symbol: string, exchange: Exchange, datetime: int, interval: Option<Interval>,
    fields: BarFields, gatewayName: string)

  datatype TickData = TickData(
    symbol: string, exchange: Exchange, datetime: int,
    fields: TickFields, gatewayName: string)

  datatype BarOverview = BarOverview(
    symbol: string, exchange: Exchange, interval: Interval, count: nat, start: int, end: int)

  datatype TickOverview = TickOverview(
    symbol: string, exchange: Exchange, count: nat, start: int, end: int)

  // ---------------------------------------------------------------------------
  // Bars

  /** The row a bar is written as; the gateway name is dropped. */
  function BarRow(b: BarData): Row<BarKey, BarFields>
    requires b.interval.Some?
  {
    Row(BarKey(b.symbol, b.exchange, b.interval.value), b.datetime, b.fields)
  }

  /** Every record carries an interval: `save_bar_data` reads `interval.value` of each one. */
  predicate HasIntervals(bs: seq<BarData>)
  {
    forall i :: 0 <= i < |bs| ==> bs[i].interval.Some?
  }

  function BarRows(bs: seq<BarData>): (r: seq<Row<BarKey, BarFields>>)
    requires HasIntervals(bs)
    ensures |r| == |bs| && forall i :: 0 <= i < |bs| ==> r[i] == BarRow(bs[i])
  {
    seq(|bs|, i requires 0 <= i < |bs| => BarRow(bs[i]))
  }

  /** The bar `load_bar_data` builds from a fetched row, with the caller's key fields. */
  function LoadedBar(symbol: string, exchange: Exchange, interval: Interval, r: Row<BarKey, BarFields>): (b: BarData)
    ensures b.interval == Some(interval)
    ensures r.key == BarKey(symbol, exchange, interval) ==> BarRow(b) == r
    ensures b.gatewayName == DbGateway
  {
    BarData(symbol, exchange, r.time, Some(interval), r.payload, DbGateway)
  }

  function BarOverviewKey(o: BarOverview): BarKey
  {
    BarKey(o.symbol, o.exchange, o.interval)
  }

  function BarSummary(o: BarOverview): Overview
  {
    Overview(o.count, o.start, o.end)
  }

  /** The record `get_bar_overview` builds from one overview row. */
  function LoadedBarOverview(k: BarKey, ov: Overview): (o: BarOverview)
    ensures BarOverviewKey(o) == k && BarSummary(o) == ov
  {
    BarOverview(k.symbol, k.exchange, k.interval, ov.count, ov.start, ov.end)
  }

  // ---------------------------------------------------------------------------
  // Ticks

  function TickRow(t: TickData): Row<TickKey, TickFields>
  {
    Row(TickKey(t.symbol, t.exchange), t.datetime, t.fields)
  }

  function TickRows(ts: seq<TickData>): (r: seq<Row<TickKey, TickFields>>)
    ensures |r| == |ts| && forall i :: 0 <= i < |ts| ==> r[i] == TickRow(ts[i])
  {
    seq(|ts|, i requires 0 <= i < |ts| => TickRow(ts[i]))
  }

  function LoadedTick(symbol: string, exchange: Exchange, r: Row<TickKey, TickFields>): (t: TickData)
    ensures r.key == TickKey(symbol, exchange) ==> TickRow(t) == r
    ensures t.gatewayName == DbGateway
  {
    TickData(symbol, exchange, r.time, r.payload, DbGateway)
  }

  function TickOverviewKey(o: TickOverview): TickKey
  {
    TickKey(o.symbol, o.exchange)
  }

  function TickSummary(o: TickOverview): Overview
  {
    Overview(o.count, o.start, o.end)
  }

  function LoadedTickOverview(k: TickKey, ov: Overview): (o: TickOverview)
    ensures TickOverviewKey(o) == k && TickSummary(o) == ov
  {
    TickOverview(k.symbol, k.exchange, ov.count, ov.start, ov.end)
  }
}
