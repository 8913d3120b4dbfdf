/**
 * The geometry handed to the charting library: one wick segment per row, and a
 * body rectangle for each row that the Bullish or the Bearish mask selects.
 */
module Chart {
  import opened Candles

  /** Width of every body rectangle: twelve hours in milliseconds. */
  const Hours12: int := 12 * 60 * 60 * 1000

  const WickColour: string := "Black"
  const BullishFill: string := "green"
  const BearishFill: string := "#FF3333"
  const BodyLine: string := "black"

  /** A line segment from (x0, y0) to (x1, y1). */
  datatype Segment = Segment(x0: Instant, y0: real, x1: Instant, y1: real, colour: string)

  /** A rectangle centred at (x, y) with the given width and height. */
  datatype Rect = Rect(x: Instant, y: real, width: int, height: real, fill: string, line: string)

  /** Everything drawn: the wicks, then the green bodies, then the red bodies. */
  datatype Plot = Plot(wicks: seq<Segment>, bullish: seq<Rect>, bearish: seq<Rect>)

  /** The wick of a row runs from its High down to its Low at its index. */
  function Wick(r: Candle): Segment
  {
    Segment(r.index, r.bar.high, r.index, r.bar.low, WickColour)
  }

  /** The segment glyph fed the whole table: exactly one wick per row, in row order. */
  function Wicks(rows: seq<Candle>): (ws: seq<Segment>)
    ensures |ws| == |rows|
    ensures forall i :: 0 <= i < |rows| ==> ws[i] == Wick(rows[i])
  {
    if rows == [] then []
    else [Wick(rows[0])] + Wicks(rows[1..])
  }

  /**
   * The positions where the mask `Status == s` holds, in increasing order: the
   * rows whose index, Median and Height the masked columns pass on.
   */
  function Positions(rows: seq<Candle>, s: Status): (ps: seq<int>)
    ensures forall k :: 0 <= k < |ps| ==> 0 <= ps[k] < |rows| && rows[ps[k]].status == s
    ensures forall i :: 0 <= i < |rows| && rows[i].status == s ==> i in ps
    ensures forall j, k :: 0 <= j < k < |ps| ==> ps[j] < ps[k]
  {
    if rows == [] then []
    else
      var n := |rows| - 1;
      var init := Positions(rows[..n], s);
      PositionsExtend(rows, s, init);
      init + (if rows[n].status == s then [n] else [])
  }

  /** Appending the last row's position, when the mask holds there, keeps the mask's three facts. */
  lemma PositionsExtend(rows: seq<Candle>, s: Status, init: seq<int>)
    requires |rows| > 0
    requires forall k :: 0 <= k < |init| ==> 0 <= init[k] < |rows| - 1 && rows[..|rows| - 1][init[k]].status == s
    requires forall i :: 0 <= i < |rows| - 1 && rows[..|rows| - 1][i].status == s ==> i in init
    requires forall j, k :: 0 <= j < k < |init| ==> init[j] < init[k]
    ensures var n := |rows| - 1;
            var ps := init + (if rows[n].status == s then [n] else []);
            (forall k :: 0 <= k < |ps| ==> 0 <= ps[k] < |rows| && rows[ps[k]].status == s) &&
            (forall i :: 0 <= i < |rows| && rows[i].status == s ==> i in ps) &&
            (forall j, k :: 0 <= j < k < |ps| ==> ps[j] < ps[k])
  {
  }

  /** The body of a row: centred at its Median, Height tall and twelve hours wide. */
  function Body(r: Candle, fill: string): Rect
  {
    Rect(r.index, r.median, Hours12, r.height, fill, BodyLine)
  }

  /** The body drawn for a fetched bar: at its date, centred halfway between open and close. */
  function BarBody(b: Bar, fill: string): Rect
  {
    Rect(b.date, Median(b.open, b.close), Hours12, Height(b.open, b.close), fill, BodyLine)
  }

  /**
   * The rect glyph fed the masked columns: one body per row whose Status is
   * `s`, taken in the order of the mask's positions.
   */
  function Bodies(rows: seq<Candle>, s: Status, fill: string): (bs: seq<Rect>)
    ensures |bs| == |Positions(rows, s)|
    ensures forall k :: 0 <= k < |bs| ==> bs[k] == Body(rows[Positions(rows, s)[k]], fill)
  {
    if rows == [] then []
    else
      var n := |rows| - 1;
      Bodies(rows[..n], s, fill) + (if rows[n].status == s then [Body(rows[n], fill)] else [])
  }

  /** The chart drawn for a fetched table. */
  function Draw(bars: seq<Bar>): (ch: Plot)
    ensures |ch.wicks| == |bars|
    ensures forall i :: 0 <= i < |bars| ==>
              ch.wicks[i] == Segment(bars[i].date, bars[i].high, bars[i].date, bars[i].low, WickColour)
    ensures forall r :: r in ch.bullish ==> r.fill == BullishFill && r.width == Hours12
    ensures forall r :: r in ch.bearish ==> r.fill == BearishFill && r.width == Hours12
    ensures |ch.bullish| == |Positions(Enrich(bars), Bullish)|
    ensures |ch.bearish| == |Positions(Enrich(bars), Bearish)|
  {
    var rows := Enrich(bars);
    Plot(Wicks(rows), Bodies(rows, Bullish, BullishFill), Bodies(rows, Bearish, BearishFill))
  }

  /** Lower and upper edge of a rectangle. */
  function Bottom(r: Rect): real { r.y - r.height / 2.0 }

  function Top(r: Rect): real { r.y + r.height / 2.0 }

  /**
   * The three masks partition the rows: every row is selected by exactly one
   * of them, so the three position lists together are as long as the table.
   */
  lemma {:induction false} MasksPartition(rows: seq<Candle>)
    ensures |Positions(rows, Bullish)| + |Positions(rows, Bearish)| + |Positions(rows, Equal)| == |rows|
    ensures forall i :: 0 <= i < |rows| ==>
              (i in Positions(rows, Bullish) <==> rows[i].status == Bullish) &&
              (i in Positions(rows, Bearish) <==> rows[i].status == Bearish) &&
              (i in Positions(rows, Equal) <==> rows[i].status == Equal)
  {
    if rows != [] {
      var n := |rows| - 1;
      MasksPartition(rows[..n]);
      assert rows[..n] + [rows[n]] == rows;
    }
    forall i | 0 <= i < |rows|
      ensures i in Positions(rows, Bullish) ==> rows[i].status == Bullish
      ensures i in Positions(rows, Bearish) ==> rows[i].status == Bearish
      ensures i in Positions(rows, Equal) ==> rows[i].status == Equal
    {
      if i in Positions(rows, Bullish) { InPositions(rows, Bullish, i); }
      if i in Positions(rows, Bearish) { InPositions(rows, Bearish, i); }
      if i in Positions(rows, Equal) { InPositions(rows, Equal, i); }
    }
  }

  /**
   * A position in a mask's list is a row carrying that mask's status: the
   * first ensures of `Positions` restated for `i in ps`, so that the
   * quantifiers of `MasksPartition` can use it.
   */
  lemma InPositions(rows: seq<Candle>, s: Status, i: int)
    requires i in Positions(rows, s)
    ensures 0 <= i < |rows| && rows[i].status == s
  {
  }

  /**
   * The bullish and the bearish series are disjoint, and the rows left out of
   * both are exactly the Equal ones: those get a wick and no body.
   */
  lemma {:induction false} EqualRowsHaveNoBody(bars: seq<Bar>)
    ensures |Draw(bars).bullish| + |Draw(bars).bearish| + |Positions(Enrich(bars), Equal)| == |bars|
    ensures forall i :: 0 <= i < |bars| ==>
              !(i in Positions(Enrich(bars), Bullish) && i in Positions(Enrich(bars), Bearish))
    ensures forall i :: 0 <= i < |bars| ==>
              (i !in Positions(Enrich(bars), Bullish) && i !in Positions(Enrich(bars), Bearish)
               <==> bars[i].open == bars[i].close)
  {
    var rows := Enrich(bars);
    MasksPartition(rows);
    forall i | 0 <= i < |bars|
      ensures !(i in Positions(rows, Bullish) && i in Positions(rows, Bearish))
      ensures i !in Positions(rows, Bullish) && i !in Positions(rows, Bearish) <==> bars[i].open == bars[i].close
    {
      assert rows[i].status == Classify(bars[i].close, bars[i].open);
    }
  }

  /**
   * The k-th green body of the chart is the body of the k-th Bullish bar, and
   * the k-th red body that of the k-th Bearish bar.
   */
  lemma DrawBodiesAt(bars: seq<Bar>, k: int)
    ensures var ps := Positions(Enrich(bars), Bullish);
              0 <= k < |ps| ==> Draw(bars).bullish[k] == BarBody(bars[ps[k]], BullishFill)
    ensures var ps := Positions(Enrich(bars), Bearish);
              0 <= k < |ps| ==> Draw(bars).bearish[k] == BarBody(bars[ps[k]], BearishFill)
  {
  }

  /**
   * Every body spans exactly from the lower to the higher of its row's open and
   * close, and is never flat.
   */
  lemma BodySpansOpenClose(bars: seq<Bar>, s: Status, fill: string, k: int)
    requires 0 <= k < |Bodies(Enrich(bars), s, fill)|
    ensures var rows := Enrich(bars);
              var b := bars[Positions(rows, s)[k]];
              var r := Bodies(rows, s, fill)[k];
              r.x == b.date && r.width == Hours12 &&
              Bottom(r) == Min(b.open, b.close) && Top(r) == Max(b.open, b.close) &&
              (s != Equal ==> r.height > 0.0)
  {
  }

  /** On a well-formed table each body lies within the wick drawn at the same date. */
  lemma BodyWithinWick(bars: seq<Bar>, s: Status, fill: string, k: int)
    requires forall i :: 0 <= i < |bars| ==> WellFormed(bars[i])
    requires 0 <= k < |Bodies(Enrich(bars), s, fill)|
    ensures var p := Positions(Enrich(bars), s)[k];
              var w := Draw(bars).wicks[p];
              var r := Bodies(Enrich(bars), s, fill)[k];
              w.x0 == r.x && w.y1 <= Bottom(r) && Top(r) <= w.y0
  {
  }

  /**
   * Each body series keeps the relative order of its rows: on a table whose
   * dates increase, the bodies' dates increase too.
   */
  lemma BodiesInDateOrder(bars: seq<Bar>, s: Status, fill: string)
    requires forall i, j :: 0 <= i < j < |bars| ==> bars[i].date < bars[j].date
    ensures var bs := Bodies(Enrich(bars), s, fill);
              forall j, k :: 0 <= j < k < |bs| ==> bs[j].x < bs[k].x
  {
  }
}
