/**
 * The glucose page's main chart: the records are sorted by time in place
 * on the array the page passed in, then turned into chart points, and
 * each point is coloured and labelled by its band.
 */
module GlucoseChart {
  import opened Wrappers
  import opened Readings

  /** A chart point; the formatted date strings are not modelled. */
  datatype ChartPoint = ChartPoint(time: int, value: real, notes: string)

  /** `notes || ''`: a missing note becomes the empty string. */
  function PointOf(r: GlucoseRecord): (p: ChartPoint)
    ensures p.time == r.measuredAt && p.value == r.value
    ensures p.notes == "" <==> r.notes.None? || r.notes.value == ""
  {
    ChartPoint(r.measuredAt, r.value, if r.notes.Some? then r.notes.value else "")
  }

  /** The records in positions lo..hi-1 of `a` are in time order. */
  ghost predicate SortedBetween(a: array<GlucoseRecord>, lo: int, hi: int)
    reads a
  {
    forall k, l :: lo <= k < l < hi && 0 <= k && l < a.Length ==> a[k].measuredAt <= a[l].measuredAt
  }

  /** Exchanges the neighbours a[j - 1] and a[j]. */
  method SwapDown(a: array<GlucoseRecord>, j: int)
    requires 0 < j < a.Length
    modifies a
    ensures a[..] == old(a[..])[j - 1 := old(a[j])][j := old(a[j - 1])]
    ensures multiset(a[..]) == multiset(old(a[..]))
  {
    a[j - 1], a[j] := a[j], a[j - 1];
  }

  /** One insertion step: moves a[i] left into the sorted prefix a[..i]. */
  method InsertInto(a: array<GlucoseRecord>, i: int)
    requires 0 < i < a.Length
    requires SortedBetween(a, 0, i)
    modifies a
    ensures SortedBetween(a, 0, i + 1)
    ensures multiset(a[..]) == multiset(old(a[..]))
  {
    var j := i;
    while j > 0 && a[j - 1].measuredAt > a[j].measuredAt
      invariant 0 <= j <= i
      invariant forall k, l :: 0 <= k < l <= i && k != j && l != j ==> a[k].measuredAt <= a[l].measuredAt
      invariant forall l :: j < l <= i ==> a[j].measuredAt < a[l].measuredAt
      invariant multiset(a[..]) == multiset(old(a[..]))
    {
      SwapDown(a, j);
      j := j - 1;
    }
  }

  /** Sorts the records ascending by measurement time, in place. */
  method SortByTimeInPlace(a: array<GlucoseRecord>)
    modifies a
    ensures SortedByTime(a[..])
    ensures multiset(a[..]) == multiset(old(a[..]))
  {
    if a.Length == 0 {
      return;
    }
    var i := 1;
    while i < a.Length
      invariant 1 <= i <= a.Length
      invariant SortedBetween(a, 0, i)
      invariant multiset(a[..]) == multiset(old(a[..]))
    {
      InsertInto(a, i);
      i := i + 1;
    }
  }

  datatype ChartView = NoData | Chart(points: seq<ChartPoint>)

  /**
   * `prepareChartData` followed by the empty check: the prop array ends up
   * sorted by time (a permutation of what it held), and the chart has one
   * point per record, in that order.
   */
  method PrepareChart(records: array<GlucoseRecord>) returns (view: ChartView)
    modifies records
    ensures SortedByTime(records[..])
    ensures multiset(records[..]) == multiset(old(records[..]))
    ensures view.NoData? <==> records.Length == 0
    ensures view.Chart? ==>
      && |view.points| == records.Length
      && forall i :: 0 <= i < records.Length ==> view.points[i] == PointOf(records[i])
  {
    SortByTimeInPlace(records);
    var points := seq(records.Length, i reads records requires 0 <= i < records.Length => PointOf(records[i]));
    if |points| == 0 {
      return NoData;
    }
    return Chart(points);
  }

  datatype DotColour = RedDot | OrangeDot | GreenDot

  /** `getDotColor`: red below 3.9, orange above 7.8, green otherwise. */
  function DotColourOf(v: real): (c: DotColour)
    ensures DotBand(c) == BandOf(v)
  {
    if v < LowBound then RedDot else if v > HighBound then OrangeDot else GreenDot
  }

  datatype TooltipStatus = LowWarning | NormalNote | HighWarning

  /** The status lines of the tooltip: each of the three guarded labels that applies. */
  function TooltipLines(v: real): (lines: seq<TooltipStatus>)
    // the three guards never overlap and never all fail
    ensures |lines| == 1
    ensures StatusBand(lines[0]) == BandOf(v)
  {
    (if v < LowBound then [LowWarning] else [])
    + (if v >= LowBound && v <= HighBound then [NormalNote] else [])
    + (if v > HighBound then [HighWarning] else [])
  }

  function StatusBand(s: TooltipStatus): Band
  {
    match s
    case LowWarning => Low
    case NormalNote => Normal
    case HighWarning => High
  }

  function DotBand(c: DotColour): Band
  {
    match c
    case RedDot => Low
    case GreenDot => Normal
    case OrangeDot => High
  }

  /**
   * The tooltip shows exactly one status line, and it names the same band
   * as the dot's colour: the band of the value.
   */
  lemma TooltipMatchesDot(v: real)
    ensures |TooltipLines(v)| == 1
    ensures StatusBand(TooltipLines(v)[0]) == DotBand(DotColourOf(v)) == BandOf(v)
  {
  }
}
