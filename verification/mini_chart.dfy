/** The dashboard's mini chart: the trend line of the last seven readings. */
module MiniChart {
  import opened Readings

  /** How many records the mini chart takes from the end of its input. */
  const Window := 7

  datatype Point = Point(value: real, time: int)

  /** `records.slice(-7)`: the last seven records in input order, or all of fewer. */
  function LastSeven(records: seq<GlucoseRecord>): (r: seq<GlucoseRecord>)
    ensures |r| == if |records| < Window then |records| else Window
    ensures forall i :: 0 <= i < |r| ==> r[i] == records[|records| - |r| + i]
  {
    records[if |records| > Window then |records| - Window else 0..]
  }

  /** The records the chart plots, in plotting order. */
  function ChartRecords(records: seq<GlucoseRecord>): seq<GlucoseRecord>
  {
    SortByTime(LastSeven(records))
  }

  /** `prepareChartData`: the last seven records sorted by time, mapped to points. */
  function PrepareChartData(records: seq<GlucoseRecord>): (pts: seq<Point>)
    ensures |pts| == if |records| < Window then |records| else Window
    ensures forall i, j :: 0 <= i < j < |pts| ==> pts[i].time <= pts[j].time
  {
    var rs := ChartRecords(records);
    seq(|rs|, i requires 0 <= i < |rs| => Point(rs[i].value, rs[i].measuredAt))
  }

  /**
   * The chart plots at most seven points: one per record among the last
   * seven of the input (a permutation of that slice, never an earlier
   * record), ascending by time, each keeping its record's value and time.
   */
  lemma ChartPlotsLastSeven(records: seq<GlucoseRecord>)
    ensures var rs := ChartRecords(records);
      var pts := PrepareChartData(records);
      && |pts| == |rs| == (if |records| < Window then |records| else Window)
      && multiset(rs) == multiset(LastSeven(records))
      && (forall i, j :: 0 <= i < j < |pts| ==> pts[i].time <= pts[j].time)
      && (forall i :: 0 <= i < |pts| ==> pts[i] == Point(rs[i].value, rs[i].measuredAt))
  {
  }

  /** A record before the last seven is never plotted, even when it is the newest. */
  lemma EarlierRecordsNotPlotted(records: seq<GlucoseRecord>, k: int)
    requires 0 <= k < |records| - Window
    requires forall i :: 0 <= i < |records| && i != k ==> records[i] != records[k]
    ensures records[k] !in multiset(ChartRecords(records))
  {
    var last := LastSeven(records);
    forall i | 0 <= i < |last|
      ensures last[i] != records[k]
    {
      assert last[i] == records[|records| - Window + i];
    }
    assert multiset(ChartRecords(records)) == multiset(last);
  }

  /** The colour of the trend line. */
  datatype Stroke = Red | Green | Grey

  /** Rising is red, falling is green, flat is grey. */
  function Trend(first: real, last: real): (c: Stroke)
    ensures c == Red <==> last > first
    ensures c == Green <==> last < first
    ensures c == Grey <==> last == first
  {
    if last > first then Red else if last < first then Green else Grey
  }

  datatype MiniView = NotEnoughData | Line(points: seq<Point>, stroke: Stroke)

  function Render(records: seq<GlucoseRecord>): (v: MiniView)
    ensures v.NotEnoughData? <==> |records| < 2
    ensures v.Line? ==> v.points == PrepareChartData(records) && 2 <= |v.points| <= Window
  {
    var pts := PrepareChartData(records);
    if |pts| < 2 then NotEnoughData
    else Line(pts, Trend(pts[0].value, pts[|pts| - 1].value))
  }

  /**
   * Fewer than two records give the placeholder; otherwise the line is red
   * exactly when the latest plotted reading is above the earliest one and
   * green exactly when it is below.
   */
  lemma RenderTrend(records: seq<GlucoseRecord>)
    ensures Render(records).NotEnoughData? <==> |records| < 2
    ensures Render(records).Line? ==>
      var rs := ChartRecords(records);
      && (Render(records).stroke == Red <==> rs[|rs| - 1].value > rs[0].value)
      && (Render(records).stroke == Green <==> rs[|rs| - 1].value < rs[0].value)
      && rs[0].measuredAt <= rs[|rs| - 1].measuredAt
  {
    ChartPlotsLastSeven(records);
  }
}
