/** The statistics the analytics page derives from the filtered list
    (src/views/AnalyticsView.tsx): count, magnitude minimum, average and maximum,
    average depth, anomaly count, and the per-source and per-magnitude-range
    distributions, which the page builds by bumping counters in a dictionary. */
module Analytics {
  import opened Types
  import opened Seqs
  import QuakeStore

  /** The page's `stats` state. Keys of the source distribution are the sources. */
  datatype Stats = Stats(
    total: nat,
    averageMagnitude: real,
    maxMagnitude: real,
    minMagnitude: real,
    averageDepth: real,
    anomalyCount: nat,
    sourceDistribution: map<Source, nat>,
    magnitudeDistribution: map<string, nat>)

  /** What the page shows before any non-empty list has arrived. */
  const InitialStats: Stats := Stats(0, 0.0, 0.0, 0.0, 0.0, 0, map[], map[])

  // ----- the map/reduce expressions -----

  /** `xs.reduce((a, b) => a + b, 0)`. */
  function Sum(xs: seq<real>): real
    decreases |xs|
  {
    if xs == [] then 0.0 else xs[0] + Sum(xs[1..])
  }

  /** `Math.min(...xs)` on a non-empty list: a lower bound that some element attains. */
  function MinOf(xs: seq<real>): (r: real)
    requires |xs| > 0
    ensures forall i :: 0 <= i < |xs| ==> r <= xs[i]
    ensures exists i :: 0 <= i < |xs| && xs[i] == r
    decreases |xs|
  {
    if |xs| == 1 then xs[0]
    else
      var m := MinOf(xs[1..]);
      assert exists i :: 1 <= i < |xs| && xs[i] == m by {
        var k :| 0 <= k < |xs[1..]| && xs[1..][k] == m;
        assert xs[k + 1] == m;
      }
      if xs[0] <= m then xs[0] else m
  }

  /** `Math.max(...xs)` on a non-empty list: an upper bound that some element attains. */
  function MaxOf(xs: seq<real>): (r: real)
    requires |xs| > 0
    ensures forall i :: 0 <= i < |xs| ==> xs[i] <= r
    ensures exists i :: 0 <= i < |xs| && xs[i] == r
    decreases |xs|
  {
    if |xs| == 1 then xs[0]
    else
      var m := MaxOf(xs[1..]);
      assert exists i :: 1 <= i < |xs| && xs[i] == m by {
        var k :| 0 <= k < |xs[1..]| && xs[1..][k] == m;
        assert xs[k + 1] == m;
      }
      if xs[0] >= m then xs[0] else m
  }

  /** The sum of values that all lie in `[lo, hi]` lies between `n * lo` and `n * hi`. */
  lemma {:induction false} SumBounds(xs: seq<real>, lo: real, hi: real)
    requires forall i :: 0 <= i < |xs| ==> lo <= xs[i] <= hi
    ensures (|xs| as real) * lo <= Sum(xs) <= (|xs| as real) * hi
    decreases |xs|
  {
    if xs != [] {
      SumBounds(xs[1..], lo, hi);
      assert (|xs| as real) * lo == lo + (|xs[1..]| as real) * lo;
      assert (|xs| as real) * hi == hi + (|xs[1..]| as real) * hi;
    }
  }

  /** Dividing `n * lo <= total <= n * hi` by a positive `n`. */
  lemma QuotientBounds(lo: real, total: real, hi: real, n: real)
    requires n > 0.0 && n * lo <= total <= n * hi
    ensures lo <= total / n <= hi
  {
    assert total / n - lo == (total - n * lo) / n;
    assert hi - total / n == (n * hi - total) / n;
  }

  /** The average of a non-empty list lies within any bounds of its elements. */
  lemma AverageBounds(xs: seq<real>, lo: real, hi: real)
    requires |xs| > 0
    requires forall i :: 0 <= i < |xs| ==> lo <= xs[i] <= hi
    ensures lo <= Sum(xs) / (|xs| as real) <= hi
  {
    SumBounds(xs, lo, hi);
    QuotientBounds(lo, Sum(xs), hi, |xs| as real);
  }

  /** The average of a non-empty list lies between its minimum and its maximum. */
  lemma AverageBetweenMinAndMax(xs: seq<real>)
    requires |xs| > 0
    ensures MinOf(xs) <= Sum(xs) / (|xs| as real) <= MaxOf(xs)
  {
    AverageBounds(xs, MinOf(xs), MaxOf(xs));
  }

  /** `filteredEarthquakes.map(eq => eq.magnitude)`. */
  function Magnitudes(list: seq<Earthquake>): (r: seq<real>)
    ensures |r| == |list| && forall i :: 0 <= i < |list| ==> r[i] == list[i].magnitude
  {
    seq(|list|, i requires 0 <= i < |list| => list[i].magnitude)
  }

  /** `filteredEarthquakes.map(eq => eq.depth)`. */
  function Depths(list: seq<Earthquake>): (r: seq<real>)
    ensures |r| == |list| && forall i :: 0 <= i < |list| ==> r[i] == list[i].depth
  {
    seq(|list|, i requires 0 <= i < |list| => list[i].depth)
  }

  // ----- the two distributions -----

  /** The items whose key is `k`. */
  function KeyMatches<T, K(==)>(key: T -> K, k: K): T -> bool
  {
    (x: T) => key(x) == k
  }

  /** `items.reduce((acc, x) => { acc[key(x)] = (acc[key(x)] || 0) + 1; return acc }, {})`:
      the dictionary holds exactly the keys that occur, each mapped to how many items have it. */
  method Tally<T, K(==)>(items: seq<T>, key: T -> K) returns (acc: map<K, nat>)
    ensures forall k :: k in acc <==> Count(items, KeyMatches(key, k)) > 0
    ensures forall k :: k in acc ==> acc[k] == Count(items, KeyMatches(key, k))
  {
    acc := map[];
    for i := 0 to |items|
      invariant forall k :: k in acc <==> Count(items[..i], KeyMatches(key, k)) > 0
      invariant forall k :: k in acc ==> acc[k] == Count(items[..i], KeyMatches(key, k))
    {
      var k := key(items[i]);
      assert items[..i + 1] == items[..i] + [items[i]];
      forall j: K
        ensures Count(items[..i + 1], KeyMatches(key, j))
                == Count(items[..i], KeyMatches(key, j)) + (if j == k then 1 else 0)
      {
        CountSnoc(items[..i], items[i], KeyMatches(key, j));
      }
      var c := if k in acc then acc[k] else 0;
      assert c == Count(items[..i], KeyMatches(key, k));
      acc := acc[k := c + 1];
    }
    assert items[..|items|] == items;
  }

  /** The magnitude-range label of `mag`, the page's ternary chain. */
  function RangeOf(mag: real): string
  {
    if mag < 3.0 then "<3"
    else if mag < 4.0 then "3-4"
    else if mag < 5.0 then "4-5"
    else if mag < 6.0 then "5-6"
    else "≥6"
  }

  /** The label the page writes for each magnitude band. */
  function BandLabel(b: Band): string
  {
    match b
    case Below3 => "<3"
    case From3To4 => "3-4"
    case From4To5 => "4-5"
    case From5To6 => "5-6"
    case AtLeast6 => "≥6"
  }

  /** A magnitude is given the label of a band exactly when it lies in that band, so
      every magnitude falls in exactly one range, each lower bound inclusive. */
  lemma RangeOfIsBand(mag: real, b: Band)
    ensures RangeOf(mag) == BandLabel(b) <==> InBand(mag, b)
  {
  }

  function SourceOf(e: Earthquake): Source
  {
    e.source
  }

  function RangeOfRecord(e: Earthquake): string
  {
    RangeOf(e.magnitude)
  }

  /** Every record has one of the two sources, so the two source counts add up to the total. */
  lemma SourceCountsSumToTotal(list: seq<Earthquake>)
    ensures Count(list, KeyMatches(SourceOf, AFAD)) + Count(list, KeyMatches(SourceOf, Kandilli)) == |list|
  {
    var p, q := KeyMatches(SourceOf, AFAD), KeyMatches(SourceOf, Kandilli);
    forall e: Earthquake ensures q(e) == !p(e) {
      assert p(e) == (SourceOf(e) == AFAD) && q(e) == (SourceOf(e) == Kandilli);
    }
    CountComplement(list, p, q);
  }

  /** The five range counts add up to the total. */
  lemma {:induction false} RangeCountsSumToTotal(list: seq<Earthquake>)
    ensures Count(list, KeyMatches(RangeOfRecord, "<3")) + Count(list, KeyMatches(RangeOfRecord, "3-4"))
            + Count(list, KeyMatches(RangeOfRecord, "4-5")) + Count(list, KeyMatches(RangeOfRecord, "5-6"))
            + Count(list, KeyMatches(RangeOfRecord, "≥6")) == |list|
    decreases |list|
  {
    if list != [] {
      RangeCountsSumToTotal(list[1..]);
      var m := list[0].magnitude;
      assert RangeOfRecord(list[0]) == RangeOf(m);
      if m < 3.0 { assert RangeOf(m) == "<3"; }
      else if m < 4.0 { assert RangeOf(m) == "3-4"; }
      else if m < 5.0 { assert RangeOf(m) == "4-5"; }
      else if m < 6.0 { assert RangeOf(m) == "5-6"; }
      else { assert RangeOf(m) == "≥6"; }
    }
  }

  // ----- the effect -----

  /** The second effect of the page: with a non-empty list every statistic is
      recomputed from it; with an empty list the previous statistics stay. */
  method ComputeStats(prev: Stats, list: seq<Earthquake>) returns (st: Stats)
    ensures |list| == 0 ==> st == prev
    ensures |list| > 0 ==> st.total == |list| && st.anomalyCount == QuakeStore.AnomalyCountOf(list)
    ensures |list| > 0 ==>
              (forall i :: 0 <= i < |list| ==> st.minMagnitude <= list[i].magnitude <= st.maxMagnitude)
    ensures |list| > 0 ==>
              (exists i :: 0 <= i < |list| && list[i].magnitude == st.minMagnitude) &&
              (exists j :: 0 <= j < |list| && list[j].magnitude == st.maxMagnitude)
    ensures |list| > 0 ==> st.minMagnitude <= st.averageMagnitude <= st.maxMagnitude
    ensures |list| > 0 ==> st.averageMagnitude == Sum(Magnitudes(list)) / (|list| as real)
    ensures |list| > 0 ==> st.averageDepth == Sum(Depths(list)) / (|list| as real)
    ensures |list| > 0 ==>
              forall s :: (s in st.sourceDistribution <==> Count(list, KeyMatches(SourceOf, s)) > 0)
    ensures |list| > 0 ==>
              forall s :: s in st.sourceDistribution ==>
                st.sourceDistribution[s] == Count(list, KeyMatches(SourceOf, s))
    ensures |list| > 0 ==>
              forall r :: (r in st.magnitudeDistribution <==> Count(list, KeyMatches(RangeOfRecord, r)) > 0)
    ensures |list| > 0 ==>
              forall r :: r in st.magnitudeDistribution ==>
                st.magnitudeDistribution[r] == Count(list, KeyMatches(RangeOfRecord, r))
  {
    if |list| == 0 {
      return prev;
    }
    var magnitudes := Magnitudes(list);
    var depths := Depths(list);
    var total := |list|;
    var averageMagnitude := Sum(magnitudes) / (total as real);
    var maxMagnitude := MaxOf(magnitudes);
    var minMagnitude := MinOf(magnitudes);
    var averageDepth := Sum(depths) / (total as real);
    var anomalyCount := QuakeStore.AnomalyCountOf(list);
    AverageBetweenMinAndMax(magnitudes);
    var sourceDistribution := Tally(list, SourceOf);
    var magnitudeDistribution := Tally(list, RangeOfRecord);
    st := Stats(total, averageMagnitude, maxMagnitude, minMagnitude, averageDepth, anomalyCount,
                sourceDistribution, magnitudeDistribution);
  }
}
