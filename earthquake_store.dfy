/** The earthquake store of src/stores/earthquake.ts: the raw list, the filtered view,
    the counters, the fetch status and the filter specification, changed only through
    the store's named actions. Each action is one atomic method. */
module QuakeStore {
  import opened Types
  import opened Seqs
  import QuakeService

  /** One side of `dateRange`: null, a `Date` object holding an Invalid Date (still
      truthy, so its step runs, but every comparison with its NaN is false), or a
      valid instant. */
  datatype Bound = Unset | InvalidDate | Instant(at: int)

  /** `dateRange`: a start and an end bound. */
  datatype DateRange = DateRange(start: Bound, end: Bound)

  /** The `filters` field. */
  datatype Filters = Filters(
    minMagnitude: real,
    maxMagnitude: real,
    minDepth: real,
    maxDepth: real,
    dateRange: DateRange,
    sources: seq<Source>,
    showAnomalies: bool)

  /** `Partial<filters>`: supplied fields are Some. `dateRange` is replaced as a whole,
      since the merge is a shallow spread. */
  datatype FiltersPatch = FiltersPatch(
    minMagnitude: Option<real>,
    maxMagnitude: Option<real>,
    minDepth: Option<real>,
    maxDepth: Option<real>,
    dateRange: Option<DateRange>,
    sources: Option<seq<Source>>,
    showAnomalies: Option<bool>)

  /** The initial filters, which `clearFilters` restores. */
  const DefaultFilters: Filters :=
    Filters(0.0, 10.0, 0.0, 1000.0, DateRange(Unset, Unset), [Kandilli], false)

  /** `{ ...state.filters, ...newFilters }`. */
  function MergeFilters(f: Filters, p: FiltersPatch): Filters
  {
    Filters(
      Pick(p.minMagnitude, f.minMagnitude), Pick(p.maxMagnitude, f.maxMagnitude),
      Pick(p.minDepth, f.minDepth), Pick(p.maxDepth, f.maxDepth),
      Pick(p.dateRange, f.dateRange), Pick(p.sources, f.sources),
      Pick(p.showAnomalies, f.showAnomalies))
  }

  /** Merging an empty patch keeps the filters, merging a patch twice is merging it
      once, and a patch supplying every field yields exactly those values. */
  lemma MergeFiltersLaws(f: Filters, p: FiltersPatch, g: Filters)
    ensures MergeFilters(f, FiltersPatch(None, None, None, None, None, None, None)) == f
    ensures MergeFilters(MergeFilters(f, p), p) == MergeFilters(f, p)
    ensures MergeFilters(f, FiltersPatch(Some(g.minMagnitude), Some(g.maxMagnitude), Some(g.minDepth),
                                         Some(g.maxDepth), Some(g.dateRange), Some(g.sources),
                                         Some(g.showAnomalies))) == g
  {
  }

  /** The value `fetchEarthquakes` caught: an `Error` with its message, or anything else. */
  datatype Thrown = ErrorObject(message: string) | OtherValue

  /** What awaiting the service produced. */
  datatype FetchResult = Fetched(list: seq<Earthquake>) | Threw(thrown: Thrown)

  function MessageOf(t: Thrown): string
  {
    match t
    case ErrorObject(m) => m
    case OtherValue => "Unknown error"
  }

  // ---------------------------------------------------------------------------
  // The filter criteria of applyFilters, one per step
  // ---------------------------------------------------------------------------

  function MagnitudeTest(f: Filters): Earthquake -> bool
  {
    (e: Earthquake) => f.minMagnitude <= e.magnitude <= f.maxMagnitude
  }

  function DepthTest(f: Filters): Earthquake -> bool
  {
    (e: Earthquake) => f.minDepth <= e.depth <= f.maxDepth
  }

  /** `date >= start` for a parsed record date (None for an Invalid Date): true
      without a start, false when either side is NaN. */
  predicate NotBefore(date: Option<int>, start: Bound)
  {
    match start
    case Unset => true
    case InvalidDate => false
    case Instant(t) => date.Some? && date.value >= t
  }

  /** `date <= end`, likewise. */
  predicate NotAfter(date: Option<int>, end: Bound)
  {
    match end
    case Unset => true
    case InvalidDate => false
    case Instant(t) => date.Some? && date.value <= t
  }

  /** `new Date(eq.date) >= start`; without a start every record passes. */
  function StartTest(f: Filters, parseDate: string -> Option<int>): Earthquake -> bool
  {
    (e: Earthquake) => NotBefore(parseDate(e.date), f.dateRange.start)
  }

  /** `new Date(eq.date) <= end`; without an end every record passes. */
  function EndTest(f: Filters, parseDate: string -> Option<int>): Earthquake -> bool
  {
    (e: Earthquake) => NotAfter(parseDate(e.date), f.dateRange.end)
  }

  function SourceTest(f: Filters): Earthquake -> bool
  {
    (e: Earthquake) => e.source in f.sources
  }

  function IsFlagged(): Earthquake -> bool
  {
    (e: Earthquake) => e.isAnomaly
  }

  /** `eq.isAnomaly` when `showAnomalies` is on; without it every record passes. */
  function AnomalyTest(f: Filters): Earthquake -> bool
  {
    (e: Earthquake) => f.showAnomalies ==> e.isAnomaly
  }

  /** A record passes the filters when it meets every criterion that is switched on. */
  predicate Passes(e: Earthquake, f: Filters, parseDate: string -> Option<int>)
  {
    && f.minMagnitude <= e.magnitude <= f.maxMagnitude
    && f.minDepth <= e.depth <= f.maxDepth
    && NotBefore(parseDate(e.date), f.dateRange.start)
    && NotAfter(parseDate(e.date), f.dateRange.end)
    && e.source in f.sources
    && (f.showAnomalies ==> e.isAnomaly)
  }

  function PassesTest(f: Filters, parseDate: string -> Option<int>): Earthquake -> bool
  {
    (e: Earthquake) => Passes(e, f, parseDate)
  }

  /** The filtered view the filters select from a raw list. */
  function Visible(list: seq<Earthquake>, f: Filters, parseDate: string -> Option<int>): seq<Earthquake>
  {
    Filter(list, PassesTest(f, parseDate))
  }

  function AnomalyCountOf(list: seq<Earthquake>): nat
  {
    Count(list, IsFlagged())
  }

  /** The view keeps exactly the passing records, in raw order. */
  lemma VisibleExactly(list: seq<Earthquake>, f: Filters, parseDate: string -> Option<int>)
    ensures IsSubsequence(Visible(list, f, parseDate), list)
    ensures forall e :: e in Visible(list, f, parseDate) <==> e in list && Passes(e, f, parseDate)
  {
    FilterIsSubsequence(list, PassesTest(f, parseDate));
    forall e ensures e in Visible(list, f, parseDate) <==> e in list && Passes(e, f, parseDate) {
      FilterMembership(list, PassesTest(f, parseDate), e);
    }
  }

  /** Filtering an already filtered view changes nothing. */
  lemma VisibleIdempotent(list: seq<Earthquake>, f: Filters, parseDate: string -> Option<int>)
    ensures Visible(Visible(list, f, parseDate), f, parseDate) == Visible(list, f, parseDate)
  {
    FilterIdempotent(list, PassesTest(f, parseDate));
  }

  /** A date bound holding an Invalid Date is truthy, so its step runs and, since no
      comparison with NaN holds, the view is empty whatever the records. */
  lemma {:induction false} InvalidBoundEmptiesView(list: seq<Earthquake>, f: Filters,
                                                   parseDate: string -> Option<int>)
    requires f.dateRange.start.InvalidDate? || f.dateRange.end.InvalidDate?
    ensures Visible(list, f, parseDate) == []
    decreases |list|
  {
    if list != [] {
      InvalidBoundEmptiesView(list[1..], f, parseDate);
      assert !Passes(list[0], f, parseDate);
    }
  }

  /** Under the default filters the view is the whole raw list exactly when every record
      has magnitude in [0, 10], depth in [0, 1000] and source Kandilli; so `clearFilters`,
      which shows the whole list, agrees with `applyFilters` only for such lists. */
  lemma DefaultFiltersKeepAll(list: seq<Earthquake>, parseDate: string -> Option<int>)
    ensures Visible(list, DefaultFilters, parseDate) == list
            <==> forall i :: 0 <= i < |list| ==>
                   0.0 <= list[i].magnitude <= 10.0 && 0.0 <= list[i].depth <= 1000.0
                   && list[i].source == Kandilli
  {
    var p := PassesTest(DefaultFilters, parseDate);
    if forall i :: 0 <= i < |list| ==> p(list[i]) {
      FilterKeepsAll(list, p);
    } else {
      var i :| 0 <= i < |list| && !p(list[i]);
      if Visible(list, DefaultFilters, parseDate) == list {
        FilterAll(list, p);
        assert false;
      }
    }
  }

  // ---------------------------------------------------------------------------
  // List updates
  // ---------------------------------------------------------------------------

  /** `earthquakes.map(eq => eq.id === id ? { ...eq, ...updates } : eq)`. */
  function Updated(list: seq<Earthquake>, id: string, patch: EarthquakePatch): (r: seq<Earthquake>)
    ensures |r| == |list|
  {
    seq(|list|, i requires 0 <= i < |list| => if list[i].id == id then Merge(list[i], patch) else list[i])
  }

  function HasOtherId(id: string): Earthquake -> bool
  {
    (e: Earthquake) => e.id != id
  }

  /** The record with flag and score recomputed by the heuristic. */
  function Rescore(e: Earthquake): Earthquake
  {
    e.(isAnomaly := QuakeService.IsAnomalous(e.magnitude, e.depth),
       anomalyScore := Some(QuakeService.AnomalyScore(e.magnitude, e.depth)))
  }

  function Rescored(list: seq<Earthquake>): (r: seq<Earthquake>)
    ensures |r| == |list|
  {
    seq(|list|, i requires 0 <= i < |list| => Rescore(list[i]))
  }

  /** After rescoring every record obeys the heuristic, its score is 0 when it is not
      anomalous, and its other fields are those it had. */
  lemma RescoredSound(list: seq<Earthquake>)
    ensures forall i :: 0 <= i < |list| ==>
              && Rescored(list)[i].isAnomaly == (list[i].magnitude > 5.0 && list[i].depth < 10.0)
              && (!Rescored(list)[i].isAnomaly ==> Rescored(list)[i].anomalyScore == Some(0.0))
              && QuakeService.AnomalyConsistent(Rescored(list)[i])
              && Rescored(list)[i].(isAnomaly := list[i].isAnomaly, anomalyScore := list[i].anomalyScore) == list[i]
  {
  }

  /** Records straight from the normaliser already carry the heuristic's flag and score,
      so `detectAnomalies` leaves them as they are. */
  lemma RescoreFreshRecords(raws: seq<QuakeService.RawEarthquake>)
    ensures Rescored(QuakeService.TransformAll(raws)) == QuakeService.TransformAll(raws)
  {
    var list := QuakeService.TransformAll(raws);
    forall i | 0 <= i < |list| ensures Rescored(list)[i] == list[i] {
      assert QuakeService.AnomalyConsistent(list[i]);
    }
  }

  // ---------------------------------------------------------------------------
  // The store
  // ---------------------------------------------------------------------------

  class EarthquakeStore {
    /** How `new Date(dateString)` reads a record's date: its instant, or None for an Invalid Date. */
    const parseDate: string -> Option<int>

    var earthquakes: seq<Earthquake>
    var filteredEarthquakes: seq<Earthquake>
    var totalCount: int
    var anomalyCount: int
    var isLoading: bool
    var error: Option<string>
    var filters: Filters

    /** `totalCount` is the raw length and the view is drawn, in order, from the raw list. */
    ghost predicate Valid()
      reads this
    {
      totalCount == |earthquakes| && IsSubsequence(filteredEarthquakes, earthquakes)
    }

    constructor (parseDate: string -> Option<int>)
      ensures Valid()
      ensures this.parseDate == parseDate
      ensures earthquakes == [] && filteredEarthquakes == [] && totalCount == 0 && anomalyCount == 0
      ensures !isLoading && error == None && filters == DefaultFilters
    {
      this.parseDate := parseDate;
      earthquakes := [];
      filteredEarthquakes := [];
      totalCount := 0;
      anomalyCount := 0;
      isLoading := false;
      error := None;
      filters := DefaultFilters;
    }

    /** `fetchEarthquakes`: loading ends false; a list replaces raw list and view and
        resets both counters; a thrown value is recorded and the lists are kept. */
    method FetchEarthquakes(result: FetchResult)
      requires Valid()
      modifies this
      ensures Valid()
      ensures !isLoading && filters == old(filters)
      ensures result.Fetched? ==>
                && earthquakes == result.list && filteredEarthquakes == result.list
                && totalCount == |result.list| && anomalyCount == AnomalyCountOf(result.list)
                && error == None
      ensures result.Threw? ==>
                && earthquakes == old(earthquakes) && filteredEarthquakes == old(filteredEarthquakes)
                && totalCount == old(totalCount) && anomalyCount == old(anomalyCount)
                && error == Some(MessageOf(result.thrown))
    {
      isLoading, error := true, None;
      match result {
        case Fetched(list) =>
          earthquakes := list;
          filteredEarthquakes := list;
          totalCount := |list|;
          anomalyCount := AnomalyCountOf(list);
          SubsequenceReflexive(list);
        case Threw(thrown) =>
          error := Some(MessageOf(thrown));
      }
      isLoading := false;
    }

    /** `setEarthquakes`: raw list and view become `list`; `anomalyCount` is not touched. */
    method SetEarthquakes(list: seq<Earthquake>)
      modifies this`earthquakes, this`filteredEarthquakes, this`totalCount
      ensures Valid()
      ensures earthquakes == list && filteredEarthquakes == list && totalCount == |list|
    {
      earthquakes, filteredEarthquakes, totalCount := list, list, |list|;
      SubsequenceReflexive(list);
    }

    /** `addEarthquake`: prepends; the view is reset to the whole raw list, unfiltered. */
    method AddEarthquake(e: Earthquake)
      modifies this`earthquakes, this`filteredEarthquakes, this`totalCount
      ensures Valid()
      ensures |earthquakes| == |old(earthquakes)| + 1
      ensures earthquakes[0] == e && earthquakes[1..] == old(earthquakes)
      ensures filteredEarthquakes == earthquakes && totalCount == |earthquakes|
    {
      earthquakes := [e] + earthquakes;
      filteredEarthquakes := earthquakes;
      totalCount := |earthquakes|;
      SubsequenceReflexive(earthquakes);
    }

    /** `updateEarthquake`: merges `patch` into exactly the records whose id is `id`,
        keeping length and order; the view is reset to the whole raw list. */
    method UpdateEarthquake(id: string, patch: EarthquakePatch)
      requires Valid()
      modifies this`earthquakes, this`filteredEarthquakes
      ensures Valid()
      ensures |earthquakes| == |old(earthquakes)|
      ensures forall i :: 0 <= i < |earthquakes| ==>
                earthquakes[i] == (if old(earthquakes)[i].id == id then Merge(old(earthquakes)[i], patch)
                                   else old(earthquakes)[i])
      ensures filteredEarthquakes == earthquakes
    {
      earthquakes := Updated(earthquakes, id, patch);
      filteredEarthquakes := earthquakes;
      SubsequenceReflexive(earthquakes);
    }

    /** `removeEarthquake`: drops exactly the records whose id is `id`, keeping the
        others in order; the view is reset to the whole raw list. */
    method RemoveEarthquake(id: string)
      modifies this`earthquakes, this`filteredEarthquakes, this`totalCount
      ensures Valid()
      ensures IsSubsequence(earthquakes, old(earthquakes))
      ensures forall e :: e in earthquakes <==> e in old(earthquakes) && e.id != id
      ensures |earthquakes| == |old(earthquakes)| - Count(old(earthquakes), (e: Earthquake) => e.id == id)
      ensures filteredEarthquakes == earthquakes && totalCount == |earthquakes|
    {
      ghost var before := earthquakes;
      earthquakes := Filter(earthquakes, HasOtherId(id));
      filteredEarthquakes := earthquakes;
      totalCount := |earthquakes|;
      SubsequenceReflexive(earthquakes);
      FilterIsSubsequence(before, HasOtherId(id));
      forall e ensures e in earthquakes <==> e in before && e.id != id {
        FilterMembership(before, HasOtherId(id), e);
      }
      CountComplement(before, HasOtherId(id), (e: Earthquake) => e.id == id);
    }

    method SetLoading(loading: bool)
      requires Valid()
      modifies this`isLoading
      ensures Valid()
      ensures isLoading == loading
    {
      isLoading := loading;
    }

    method SetError(err: Option<string>)
      requires Valid()
      modifies this`error
      ensures Valid()
      ensures error == err
    {
      error := err;
    }

    /** `updateFilters`: only the supplied filter fields change; no list is touched. */
    method UpdateFilters(patch: FiltersPatch)
      requires Valid()
      modifies this`filters
      ensures Valid()
      ensures filters == MergeFilters(old(filters), patch)
    {
      filters := MergeFilters(filters, patch);
    }

    /** `applyFilters`: the view becomes the records of the raw list that pass every
        switched-on criterion, in raw order, and `anomalyCount` counts the flagged
        records of the view. Only the view and the counter change, and both depend on
        the raw list and the filters alone, so a second call changes nothing. */
    method ApplyFilters()
      requires Valid()
      modifies this`filteredEarthquakes, this`anomalyCount
      ensures Valid()
      ensures filteredEarthquakes == Visible(earthquakes, filters, parseDate)
      ensures anomalyCount == AnomalyCountOf(filteredEarthquakes)
    {
      var f := filters;
      var filtered := earthquakes;
      filtered := Filter(filtered, MagnitudeTest(f));
      filtered := Filter(filtered, DepthTest(f));
      if !f.dateRange.start.Unset? {
        filtered := Filter(filtered, StartTest(f, parseDate));
      } else {
        forall i | 0 <= i < |filtered| ensures StartTest(f, parseDate)(filtered[i]) {
          assert NotBefore(parseDate(filtered[i].date), Unset);
        }
        FilterKeepsAll(filtered, StartTest(f, parseDate));
      }
      if !f.dateRange.end.Unset? {
        filtered := Filter(filtered, EndTest(f, parseDate));
      } else {
        forall i | 0 <= i < |filtered| ensures EndTest(f, parseDate)(filtered[i]) {
          assert NotAfter(parseDate(filtered[i].date), Unset);
        }
        FilterKeepsAll(filtered, EndTest(f, parseDate));
      }
      filtered := Filter(filtered, SourceTest(f));
      if f.showAnomalies {
        filtered := Filter(filtered, AnomalyTest(f));
      } else {
        FilterKeepsAll(filtered, AnomalyTest(f));
      }
      FilterSixSteps(earthquakes, MagnitudeTest(f), DepthTest(f), StartTest(f, parseDate),
                     EndTest(f, parseDate), SourceTest(f), AnomalyTest(f), PassesTest(f, parseDate));
      filteredEarthquakes := filtered;
      anomalyCount := Count(filtered, IsFlagged());
      FilterIsSubsequence(earthquakes, PassesTest(f, parseDate));
    }

    /** `clearFilters`: the filters return to their initial values and the view to the
        whole raw list; `anomalyCount` is not recomputed. */
    method ClearFilters()
      requires Valid()
      modifies this`filters, this`filteredEarthquakes
      ensures Valid()
      ensures filters == DefaultFilters && filteredEarthquakes == earthquakes
    {
      filters := DefaultFilters;
      filteredEarthquakes := earthquakes;
      SubsequenceReflexive(earthquakes);
    }

    /** `detectAnomalies`: every record is rescored by the heuristic (other fields kept),
        the view is reset to the whole raw list and `anomalyCount` counts the flagged records. */
    method DetectAnomalies()
      requires Valid()
      modifies this`earthquakes, this`filteredEarthquakes, this`anomalyCount
      ensures Valid()
      ensures earthquakes == Rescored(old(earthquakes))
      ensures forall i :: 0 <= i < |earthquakes| ==>
                && QuakeService.AnomalyConsistent(earthquakes[i])
                && earthquakes[i].(isAnomaly := old(earthquakes)[i].isAnomaly,
                                   anomalyScore := old(earthquakes)[i].anomalyScore) == old(earthquakes)[i]
      ensures filteredEarthquakes == earthquakes && anomalyCount == AnomalyCountOf(earthquakes)
    {
      earthquakes := Rescored(earthquakes);
      filteredEarthquakes := earthquakes;
      anomalyCount := AnomalyCountOf(earthquakes);
      SubsequenceReflexive(earthquakes);
    }
  }
}
