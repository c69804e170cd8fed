/**
 * Glucose records as the web UI receives them, and the target range
 * 3.9..7.8 mmol/L that every view of the UI colours readings by.
 */
module Readings {
  import opened Wrappers

  /**
   * One glucose record. `measuredAt` is the measurement time in
   * milliseconds since the epoch, as `new Date(measured_at).getTime()`
   * gives it.
   */
  datatype GlucoseRecord = GlucoseRecord(
    id: nat,
    userId: nat,
    value: real,
    measuredAt: int,
    notes: Option<string>)

  /** Lower and upper bounds of the target range, in mmol/L. */
  const LowBound: real := 3.9
  const HighBound: real := 7.8

  datatype Band = Low | Normal | High

  /** Below 3.9 is low, above 7.8 is high, anything between (bounds included) is normal. */
  function BandOf(v: real): (b: Band)
    ensures b == Low <==> v < LowBound
    ensures b == High <==> v > HighBound
    ensures b == Normal <==> LowBound <= v <= HighBound
  {
    if v < LowBound then Low else if v > HighBound then High else Normal
  }

  function Values(rs: seq<GlucoseRecord>): (vs: seq<real>)
    ensures |vs| == |rs|
    ensures forall i :: 0 <= i < |rs| ==> vs[i] == rs[i].value
  {
    seq(|rs|, i requires 0 <= i < |rs| => rs[i].value)
  }

  /** Ascending by measurement time. */
  predicate SortedByTime(s: seq<GlucoseRecord>)
  {
    forall i, j :: 0 <= i < j < |s| ==> s[i].measuredAt <= s[j].measuredAt
  }

  /** Inserts `r` into a time-sorted list, before any record measured at the same time. */
  function Insert(r: GlucoseRecord, s: seq<GlucoseRecord>): (out: seq<GlucoseRecord>)
    requires SortedByTime(s)
    ensures SortedByTime(out)
    ensures multiset(out) == multiset(s) + multiset{r}
    ensures |out| == |s| + 1
    ensures out[0] == r || (s != [] && out[0] == s[0])
  {
    if s == [] || r.measuredAt <= s[0].measuredAt then
      [r] + s
    else
      var rest := Insert(r, s[1..]);
      assert s == [s[0]] + s[1..];
      [s[0]] + rest
  }

  /**
   * The order `Array.prototype.sort` with the comparator
   * `time(a) - time(b)` produces: ascending by time, a stable sort.
   */
  function SortByTime(s: seq<GlucoseRecord>): (out: seq<GlucoseRecord>)
    ensures SortedByTime(out)
    ensures multiset(out) == multiset(s)
    ensures |out| == |s|
  {
    if s == [] then []
    else
      assert s == [s[0]] + s[1..];
      Insert(s[0], SortByTime(s[1..]))
  }

  /** An already time-sorted list is left as it is. */
  lemma {:induction false} SortByTimeKeepsSorted(s: seq<GlucoseRecord>)
    requires SortedByTime(s)
    ensures SortByTime(s) == s
  {
    if s != [] {
      SortByTimeKeepsSorted(s[1..]);
      assert SortByTime(s[1..]) == s[1..];
      assert s == [s[0]] + s[1..];
    }
  }
}
