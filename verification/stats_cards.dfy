/**
 * The statistics cards of the glucose page: average, share in range,
 * minimum, maximum, the low and high counts and the number of readings,
 * computed over exact reals.
 */
module StatsCards {
  import opened Readings

  datatype CardStats = CardStats(
    average: real,
    min: real,
    max: real,
    inRange: int,
    lowCount: nat,
    highCount: nat)

  function Sum(vs: seq<real>): real
  {
    if vs == [] then 0.0 else vs[0] + Sum(vs[1..])
  }

  /** `Math.min(...vs)` of a non-empty list. */
  function MinOf(vs: seq<real>): (m: real)
    requires vs != []
    ensures m in vs
    ensures forall i :: 0 <= i < |vs| ==> m <= vs[i]
  {
    if |vs| == 1 then vs[0]
    else
      var rest := MinOf(vs[1..]);
      assert forall i :: 1 <= i < |vs| ==> vs[i] == vs[1..][i - 1];
      if vs[0] <= rest then vs[0] else rest
  }

  /** `Math.max(...vs)` of a non-empty list. */
  function MaxOf(vs: seq<real>): (m: real)
    requires vs != []
    ensures m in vs
    ensures forall i :: 0 <= i < |vs| ==> vs[i] <= m
  {
    if |vs| == 1 then vs[0]
    else
      var rest := MaxOf(vs[1..]);
      assert forall i :: 1 <= i < |vs| ==> vs[i] == vs[1..][i - 1];
      if vs[0] >= rest then vs[0] else rest
  }

  /** How many of `vs` lie in band `b`: the length of the matching `filter`. */
  function CountIn(vs: seq<real>, b: Band): (n: nat)
    ensures n <= |vs|
  {
    if vs == [] then 0 else (if BandOf(vs[0]) == b then 1 else 0) + CountIn(vs[1..], b)
  }

  /** `Math.round`: halves round up. */
  function Round(x: real): int
  {
    (x + 0.5).Floor
  }

  /** `calculateStats`: all zeros for no records. */
  function CalculateStats(records: seq<GlucoseRecord>): (s: CardStats)
    // the low and high cards never count more readings than there are
    ensures s.lowCount + s.highCount <= |records|
    // the in-range share is a whole percentage
    ensures 0 <= s.inRange <= 100
  {
    if records == [] then CardStats(0.0, 0.0, 0.0, 0, 0, 0)
    else
      var vs := Values(records);
      var n := |vs| as real;
      BandsPartition(vs);
      PercentBounds(CountIn(vs, Normal), |vs|);
      CardStats(
        Sum(vs) / n,
        MinOf(vs),
        MaxOf(vs),
        Round((CountIn(vs, Normal) as real / n) * 100.0),
        CountIn(vs, Low),
        CountIn(vs, High))
  }

  /** The three bands split the readings: every reading is counted exactly once. */
  lemma {:induction false} BandsPartition(vs: seq<real>)
    ensures CountIn(vs, Low) + CountIn(vs, Normal) + CountIn(vs, High) == |vs|
  {
    if vs != [] {
      BandsPartition(vs[1..]);
    }
  }

  lemma {:induction false} SumBetween(vs: seq<real>, lo: real, hi: real)
    requires forall i :: 0 <= i < |vs| ==> lo <= vs[i] <= hi
    ensures |vs| as real * lo <= Sum(vs) <= |vs| as real * hi
  {
    if vs != [] {
      assert forall i :: 0 <= i < |vs| - 1 ==> vs[1..][i] == vs[i + 1];
      SumBetween(vs[1..], lo, hi);
    }
  }

  /** A band holds no reading exactly when the count of that band is zero. */
  lemma {:induction false} CountInPositive(vs: seq<real>, b: Band)
    ensures CountIn(vs, b) > 0 <==> exists i :: 0 <= i < |vs| && BandOf(vs[i]) == b
  {
    if vs != [] {
      CountInPositive(vs[1..], b);
      if CountIn(vs[1..], b) > 0 {
        var i :| 0 <= i < |vs[1..]| && BandOf(vs[1..][i]) == b;
        assert BandOf(vs[i + 1]) == b;
      }
      if exists i :: 0 <= i < |vs| && BandOf(vs[i]) == b {
        var i :| 0 <= i < |vs| && BandOf(vs[i]) == b;
        if i > 0 {
          assert BandOf(vs[1..][i - 1]) == b;
        }
      }
    }
  }

  lemma MeanBetween(sum: real, n: real, lo: real, hi: real)
    requires n > 0.0 && n * lo <= sum <= n * hi
    ensures lo <= sum / n <= hi
  {
    assert sum / n * n == sum;
  }

  /** The mean of readings that all lie in [lo, hi] lies in [lo, hi]. */
  lemma MeanOfBounded(vs: seq<real>, lo: real, hi: real)
    requires vs != []
    requires forall i :: 0 <= i < |vs| ==> lo <= vs[i] <= hi
    ensures lo <= Sum(vs) / |vs| as real <= hi
  {
    SumBetween(vs, lo, hi);
    MeanBetween(Sum(vs), |vs| as real, lo, hi);
  }

  lemma PercentBounds(c: nat, n: nat)
    requires 0 < n && c <= n
    ensures 0 <= Round((c as real / n as real) * 100.0) <= 100
  {
    MeanBetween(c as real, n as real, 0.0, 1.0);
  }

  /** The non-empty case of CalculateStats, spelled out over the values. */
  lemma StatsOfValues(records: seq<GlucoseRecord>)
    requires records != []
    ensures var vs := Values(records);
      var s := CalculateStats(records);
      && s.average == Sum(vs) / |vs| as real
      && s.min == MinOf(vs) && s.max == MaxOf(vs)
      && s.inRange == Round((CountIn(vs, Normal) as real / |vs| as real) * 100.0)
      && s.lowCount == CountIn(vs, Low) && s.highCount == CountIn(vs, High)
  {
  }

  /** The minimum and maximum bound every reading and are readings themselves. */
  lemma MinMaxAreReadings(records: seq<GlucoseRecord>)
    requires records != []
    ensures var s := CalculateStats(records);
      && (forall r :: r in records ==> s.min <= r.value <= s.max)
      && (exists r :: r in records && r.value == s.min)
      && (exists r :: r in records && r.value == s.max)
  {
    var vs := Values(records);
    StatsOfValues(records);
    var lo, hi := MinOf(vs), MaxOf(vs);
    forall r | r in records
      ensures lo <= r.value <= hi
    {
      var i :| 0 <= i < |records| && records[i] == r;
      assert vs[i] == r.value;
    }
    var i :| 0 <= i < |vs| && vs[i] == lo;
    assert records[i] in records;
    var j :| 0 <= j < |vs| && vs[j] == hi;
    assert records[j] in records;
  }

  /**
   * For at least one record: the average lies between the minimum and the
   * maximum, the low, normal and high counts add up to the number of
   * readings, and the in-range share is a percentage.
   */
  lemma StatsSummarise(records: seq<GlucoseRecord>)
    requires records != []
    ensures var s := CalculateStats(records);
      && s.min <= s.average <= s.max
      && s.lowCount + CountIn(Values(records), Normal) + s.highCount == |records|
      && 0 <= s.inRange <= 100
  {
    var vs := Values(records);
    StatsOfValues(records);
    MeanOfBounded(vs, MinOf(vs), MaxOf(vs));
    BandsPartition(vs);
    PercentBounds(CountIn(vs, Normal), |vs|);
  }

  /** No records: every figure is zero. */
  lemma EmptyStatsAreZero()
    ensures CalculateStats([]) == CardStats(0.0, 0.0, 0.0, 0, 0, 0)
  {
  }

  datatype Card =
    | AverageCard(average: real)
    | InRangeCard(percent: int)
    | MinimumCard(min: real, alarming: bool)
    | MaximumCard(max: real, alarming: bool)
    | LowCard(count: nat)
    | HighCard(count: nat)
    | TotalCard(count: nat)

  datatype CardsView = NotEnoughData | Grid(cards: seq<Card>)

  /** What the component renders; the minimum is red below 3.9, the maximum orange above 7.8. */
  function Render(records: seq<GlucoseRecord>): (v: CardsView)
    ensures v.NotEnoughData? <==> records == []
    // four fixed cards, at most the two band cards, and the total last
    ensures v.Grid? ==> 5 <= |v.cards| <= 7 && v.cards[|v.cards| - 1] == TotalCard(|records|)
  {
    if records == [] then NotEnoughData
    else
      var s := CalculateStats(records);
      Grid([AverageCard(s.average), InRangeCard(s.inRange),
            MinimumCard(s.min, s.min < LowBound), MaximumCard(s.max, s.max > HighBound)]
           + (if s.lowCount > 0 then [LowCard(s.lowCount)] else [])
           + (if s.highCount > 0 then [HighCard(s.highCount)] else [])
           + [TotalCard(|records|)])
  }

  predicate HasLowCard(cards: seq<Card>)
  {
    exists i :: 0 <= i < |cards| && cards[i].LowCard?
  }

  predicate HasHighCard(cards: seq<Card>)
  {
    exists i :: 0 <= i < |cards| && cards[i].HighCard?
  }

  /** Some reading is low exactly when the low count is positive, and exactly when the minimum is low. */
  lemma LowReadings(records: seq<GlucoseRecord>)
    requires records != []
    ensures var s := CalculateStats(records);
      && (s.lowCount > 0 <==> exists r :: r in records && r.value < LowBound)
      && (s.min < LowBound <==> exists r :: r in records && r.value < LowBound)
  {
    var vs := Values(records);
    StatsOfValues(records);
    MinMaxAreReadings(records);
    CountInPositive(vs, Low);
    if exists i :: 0 <= i < |vs| && BandOf(vs[i]) == Low {
      var i :| 0 <= i < |vs| && BandOf(vs[i]) == Low;
      assert records[i] in records;
    }
    if exists r :: r in records && r.value < LowBound {
      var r :| r in records && r.value < LowBound;
      var i :| 0 <= i < |records| && records[i] == r;
      assert BandOf(vs[i]) == Low;
    }
  }

  /** Some reading is high exactly when the high count is positive, and exactly when the maximum is high. */
  lemma HighReadings(records: seq<GlucoseRecord>)
    requires records != []
    ensures var s := CalculateStats(records);
      && (s.highCount > 0 <==> exists r :: r in records && r.value > HighBound)
      && (s.max > HighBound <==> exists r :: r in records && r.value > HighBound)
  {
    var vs := Values(records);
    StatsOfValues(records);
    MinMaxAreReadings(records);
    CountInPositive(vs, High);
    if exists i :: 0 <= i < |vs| && BandOf(vs[i]) == High {
      var i :| 0 <= i < |vs| && BandOf(vs[i]) == High;
      assert records[i] in records;
    }
    if exists r :: r in records && r.value > HighBound {
      var r :| r in records && r.value > HighBound;
      var i :| 0 <= i < |records| && records[i] == r;
      assert BandOf(vs[i]) == High;
    }
  }

  /**
   * The placeholder appears exactly when there are no records. Otherwise
   * the low card is shown exactly when some reading is below 3.9, which is
   * also exactly when the minimum is coloured as alarming; likewise for the
   * high card and the maximum; and the last card counts every record.
   */
  lemma RenderShowsBands(records: seq<GlucoseRecord>)
    ensures Render(records).NotEnoughData? <==> records == []
    ensures Render(records).Grid? ==>
      var cards := Render(records).cards;
      && (HasLowCard(cards) <==> exists r :: r in records && r.value < LowBound)
      && (HasHighCard(cards) <==> exists r :: r in records && r.value > HighBound)
      && cards[2] == MinimumCard(CalculateStats(records).min, HasLowCard(cards))
      && cards[3] == MaximumCard(CalculateStats(records).max, HasHighCard(cards))
      && cards[|cards| - 1] == TotalCard(|records|)
  {
    if records != [] {
      var s := CalculateStats(records);
      var cards := Render(records).cards;
      LowReadings(records);
      HighReadings(records);
      assert HasLowCard(cards) <==> s.lowCount > 0 by {
        if s.lowCount > 0 {
          assert cards[4].LowCard?;
        }
      }
      assert HasHighCard(cards) <==> s.highCount > 0 by {
        if s.highCount > 0 {
          assert cards[if s.lowCount > 0 then 5 else 4].HighCard?;
        }
      }
    }
  }
}
