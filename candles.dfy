/**
 * Daily OHLC bars, the bull/bear classifier and the per-bar enrichment that
 * adds the Status, Median, Height and index columns to the fetched table.
 */
module Candles {

  /** A point on the chart's time axis, in milliseconds since the Unix epoch. */
  type Instant = int

  /** The label of one trading day. */
  datatype Status = Bullish | Bearish | Equal

  /** One fetched row: the date key and the Open, High, Low, Close and Volume columns. */
  datatype Bar = Bar(date: Instant, open: real, high: real, low: real, close: real, volume: real)

  /** A row after enrichment: the fetched row and the four columns derived from it. */
  datatype Candle = Candle(bar: Bar, status: Status, median: real, height: real, index: Instant)

  function Min(x: real, y: real): real { if x <= y then x else y }

  function Max(x: real, y: real): real { if x <= y then y else x }

  /**
   * The Status of a day with close `c` and open `o`: every pair of prices gets
   * exactly one label, decided by the sign of c - o.
   */
  function Classify(c: real, o: real): (s: Status)
    ensures s == Bullish <==> c > o
    ensures s == Bearish <==> c < o
    ensures s == Equal <==> c == o
  {
    if c > o then Bullish
    else if c < o then Bearish
    else Equal
  }

  /** The Median column: the point halfway between open and close. */
  function Median(o: real, c: real): (m: real)
    ensures Min(o, c) <= m <= Max(o, c)
    ensures m - Min(o, c) == Max(o, c) - m
  {
    (o + c) / 2.0
  }

  /** The Height column: the distance between open and close. */
  function Height(o: real, c: real): (h: real)
    ensures h >= 0.0
    ensures h == Max(o, c) - Min(o, c)
    ensures h == 0.0 <==> Classify(c, o) == Equal
  {
    if o - c >= 0.0 then o - c else c - o
  }

  /** The four derived columns of one row, each computed from that row alone. */
  function EnrichBar(b: Bar): Candle
  {
    Candle(b, Classify(b.close, b.open), Median(b.open, b.close), Height(b.open, b.close), b.date)
  }

  /**
   * The whole enriched table: one row per fetched row, in the same order, each
   * keeping its fetched columns and its date key as `index`.
   */
  function Enrich(bars: seq<Bar>): (rows: seq<Candle>)
    ensures |rows| == |bars|
    ensures forall i :: 0 <= i < |bars| ==> rows[i].bar == bars[i] && rows[i].index == bars[i].date
    ensures forall i :: 0 <= i < |bars| ==>
              rows[i].status == Classify(bars[i].close, bars[i].open) &&
              rows[i].median == Median(bars[i].open, bars[i].close) &&
              rows[i].height == Height(bars[i].open, bars[i].close)
  {
    if bars == [] then []
    else [EnrichBar(bars[0])] + Enrich(bars[1..])
  }

  /**
   * The Status column, built by one pass over the Close and Open columns taken
   * pairwise, as the list comprehension does.
   */
  method ClassifyAll(bars: seq<Bar>) returns (status: seq<Status>)
    ensures |status| == |bars|
    ensures forall i :: 0 <= i < |bars| ==> status[i] == Classify(bars[i].close, bars[i].open)
    ensures forall i :: 0 <= i < |bars| ==> status[i] == Enrich(bars)[i].status
  {
    status := [];
    var i := 0;
    while i < |bars|
      invariant 0 <= i <= |bars|
      invariant |status| == i
      invariant forall k :: 0 <= k < i ==> status[k] == Classify(bars[k].close, bars[k].open)
    {
      status := status + [Classify(bars[i].close, bars[i].open)];
      i := i + 1;
    }
  }

  /**
   * The shape every fetched row is assumed to have (the table is not checked):
   * the low is at or below both open and close, the high at or above both.
   */
  predicate WellFormed(b: Bar)
  {
    b.low <= Min(b.open, b.close) && Max(b.open, b.close) <= b.high
  }

  /** Median is symmetric in open and close. */
  lemma MedianSymmetric(o: real, c: real)
    ensures Median(o, c) == Median(c, o)
  {
  }

  /** Within the enriched table, a zero Height marks exactly the Equal rows, and only those. */
  lemma HeightZeroIffEqual(bars: seq<Bar>, i: int)
    requires 0 <= i < |bars|
    ensures Enrich(bars)[i].height >= 0.0
    ensures Enrich(bars)[i].height == 0.0 <==> Enrich(bars)[i].status == Equal
    ensures Enrich(bars)[i].status != Equal ==> Enrich(bars)[i].height > 0.0
  {
  }

  /** Worked example: open 100, close 105 is a Bullish day with median 102.5 and height 5. */
  lemma BullishExample(d: Instant, v: real)
    ensures EnrichBar(Bar(d, 100.0, 107.0, 99.0, 105.0, v)) ==
            Candle(Bar(d, 100.0, 107.0, 99.0, 105.0, v), Bullish, 102.5, 5.0, d)
  {
  }

  /** Worked example: open and close both 50 is an Equal day with median 50 and height 0. */
  lemma EqualExample(d: Instant, v: real)
    ensures EnrichBar(Bar(d, 50.0, 51.0, 49.0, 50.0, v)) ==
            Candle(Bar(d, 50.0, 51.0, 49.0, 50.0, v), Equal, 50.0, 0.0, d)
  {
  }
}
