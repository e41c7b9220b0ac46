/**
 * The monthly bar chart (src/components/EmissionChart.tsx): each bar's height is
 * the month's emissions scaled so that the largest month fills the chart.
 */
module EmissionChart {
  import opened Numbers

  datatype ChartPoint = ChartPoint(month: string, emissions: real)

  /** The six hard-coded months. */
  const Data: seq<ChartPoint> := [
    ChartPoint("Jan", 420.0),
    ChartPoint("Feb", 380.0),
    ChartPoint("Mar", 350.0),
    ChartPoint("Apr", 340.0),
    ChartPoint("May", 330.0),
    ChartPoint("Jun", 320.0)]

  /** Height of the chart area in pixels. */
  const ChartHeight: real := 200.0

  /**
   * `Math.max(...data.map(d => d.emissions))`. On an empty list the source
   * yields -Infinity, so the model requires at least one point.
   */
  function MaxEmissions(data: seq<ChartPoint>): (m: real)
    requires |data| > 0
    ensures forall i :: 0 <= i < |data| ==> data[i].emissions <= m
    ensures exists i :: 0 <= i < |data| && data[i].emissions == m
  {
    if |data| == 1 then data[0].emissions
    else
      var rest := MaxEmissions(data[..|data| - 1]);
      assert forall i :: 0 <= i < |data| - 1 ==> data[..|data| - 1][i] == data[i];
      Max(rest, data[|data| - 1].emissions)
  }

  /** One drawn bar: its label, its height in pixels and its animation delay in ms. */
  datatype Bar = Bar(month: string, emissions: real, height: real, delayMs: int)

  /** `(item.emissions / maxEmissions) * chartHeight`. */
  function BarHeight(emissions: real, max: real): real
    requires max != 0.0
  {
    (emissions / max) * ChartHeight
  }

  /** `data.map((item, index) => ...)`: one bar per point, in order. */
  function Bars(data: seq<ChartPoint>): (r: seq<Bar>)
    requires |data| > 0 && MaxEmissions(data) != 0.0
    ensures |r| == |data|
    ensures forall i :: 0 <= i < |data| ==>
      r[i].month == data[i].month && r[i].emissions == data[i].emissions && r[i].delayMs == i * 100
    ensures forall i :: 0 <= i < |data| ==> r[i].height == BarHeight(data[i].emissions, MaxEmissions(data))
  {
    var max := MaxEmissions(data);
    seq(|data|, i requires 0 <= i < |data| => Bar(data[i].month, data[i].emissions, BarHeight(data[i].emissions, max), i * 100))
  }

  /** A month at the maximum is drawn at the full chart height. */
  lemma {:induction false} TallestBarFillsChart(data: seq<ChartPoint>)
    requires |data| > 0 && MaxEmissions(data) != 0.0
    ensures exists i :: 0 <= i < |data| && Bars(data)[i].height == ChartHeight
  {
    var max := MaxEmissions(data);
    var i :| 0 <= i < |data| && data[i].emissions == max;
    FullHeight(max);
    assert Bars(data)[i].height == BarHeight(max, max);
  }

  /** The maximum itself scales to the full chart height. */
  lemma FullHeight(max: real)
    requires max != 0.0
    ensures BarHeight(max, max) == ChartHeight
  {
    assert max / max == 1.0;
  }

  /** With positive emissions every bar is taller than zero and no taller than the chart. */
  lemma {:induction false} BarHeightsWithinChart(data: seq<ChartPoint>, i: int)
    requires |data| > 0
    requires forall k :: 0 <= k < |data| ==> data[k].emissions > 0.0
    requires 0 <= i < |data|
    ensures MaxEmissions(data) > 0.0
    ensures 0.0 < Bars(data)[i].height <= ChartHeight
  {
    var max := MaxEmissions(data);
    var e := data[i].emissions;
    assert 0.0 < e <= max;
    assert 0.0 < e / max <= 1.0;
  }

  /** Against a positive maximum, scaling keeps the order of two amounts. */
  lemma BarHeightMonotone(a: real, b: real, max: real)
    requires max > 0.0 && a <= b
    ensures BarHeight(a, max) <= BarHeight(b, max)
  {
    assert a / max <= b / max;
  }

  /** With a positive maximum, a month with more emissions never gets a shorter bar. */
  lemma {:induction false} BarHeightsPreserveOrder(data: seq<ChartPoint>, i: int, j: int)
    requires |data| > 0 && MaxEmissions(data) > 0.0
    requires 0 <= i < |data| && 0 <= j < |data|
    requires data[i].emissions <= data[j].emissions
    ensures Bars(data)[i].height <= Bars(data)[j].height
  {
    BarHeightMonotone(data[i].emissions, data[j].emissions, MaxEmissions(data));
  }

  /** The hard-coded chart peaks at 420 kg in January, drawn full height. */
  lemma DefaultChart()
    ensures MaxEmissions(Data) == 420.0
    ensures Bars(Data)[0].height == ChartHeight
    ensures Bars(Data)[5].height == 320.0 / 420.0 * 200.0
  {
    var m := MaxEmissions(Data);
    assert Data[0].emissions == 420.0;
    assert forall i :: 0 <= i < |Data| ==> Data[i].emissions <= 420.0;
  }
}
