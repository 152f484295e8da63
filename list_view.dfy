/** The list page (src/views/ListView.tsx): a sorted copy of the filtered list,
    ordered by date, magnitude or depth, ascending or descending, and the
    magnitude colour class of each row. */
module ListView {
  import opened Types
  import opened Seqs
  import opened Sorting

  datatype SortBy = ByDate | ByMagnitude | ByDepth

  datatype SortOrder = Asc | Desc

  /** The page opens sorted by date, newest first. */
  const InitialSortBy: SortBy := ByDate
  const InitialSortOrder: SortOrder := Desc

  /** The comparator's key. For dates it is `new Date(date).getTime()`, which is
      supplied as `dateKey` (the time of day plays no part: only `date` is read). */
  function SortKey(sortBy: SortBy, dateKey: string -> int): Earthquake -> real
  {
    (e: Earthquake) =>
      match sortBy
      case ByMagnitude => e.magnitude
      case ByDepth => e.depth
      case ByDate => dateKey(e.date) as real
  }

  /** `[...filteredEarthquakes].sort(...)`: the comparator is `key(a) - key(b)`
      ascending and `key(b) - key(a)` descending, and the sort is stable. */
  function SortedEarthquakes(list: seq<Earthquake>, sortBy: SortBy, order: SortOrder,
                             dateKey: string -> int): (r: seq<Earthquake>)
    ensures multiset(r) == multiset(list) && |r| == |list|
    ensures order == Asc ==>
              forall i, j :: 0 <= i < j < |r| ==> SortKey(sortBy, dateKey)(r[i]) <= SortKey(sortBy, dateKey)(r[j])
    ensures order == Desc ==>
              forall i, j :: 0 <= i < j < |r| ==> SortKey(sortBy, dateKey)(r[i]) >= SortKey(sortBy, dateKey)(r[j])
  {
    var key := SortKey(sortBy, dateKey);
    match order
    case Asc =>
      SortLength(list, key);
      StableSort(list, key)
    case Desc =>
      var r := StableSort(list, Negated(key));
      SortLength(list, Negated(key));
      SortedNegatedIsDescending(r, key);
      r
  }

  /** Records whose keys are equal keep their relative order from the filtered list,
      in either direction. */
  lemma SortKeepsTies(list: seq<Earthquake>, sortBy: SortBy, order: SortOrder,
                      dateKey: string -> int, k: real)
    ensures var key := SortKey(sortBy, dateKey);
            Filter(SortedEarthquakes(list, sortBy, order, dateKey), KeyIs(key, k)) == Filter(list, KeyIs(key, k))
  {
    var key := SortKey(sortBy, dateKey);
    if order == Asc {
      SortIsStable(list, key, k);
    } else {
      SortDescendingIsStable(list, key, k);
    }
  }

  /** Under the date key two records of the same day compare equal whatever their
      times, so by the previous lemma they keep their filtered-list order. */
  lemma SameDateTies(a: Earthquake, b: Earthquake, dateKey: string -> int)
    requires a.date == b.date
    ensures SortKey(ByDate, dateKey)(a) == SortKey(ByDate, dateKey)(b)
  {
  }

  /** The order button. */
  function ToggleOrder(o: SortOrder): (r: SortOrder)
    ensures r != o
  {
    if o == Asc then Desc else Asc
  }

  /** Pressing the order button twice restores the order. */
  lemma ToggleOrderTwice(o: SortOrder)
    ensures ToggleOrder(ToggleOrder(o)) == o
  {
  }

  /** `getMagnitudeColor` of the list page. */
  function ListColor(mag: real): string
  {
    if mag >= 6.0 then "bg-red-500"
    else if mag >= 5.0 then "bg-orange-500"
    else if mag >= 4.0 then "bg-yellow-500"
    else if mag >= 3.0 then "bg-green-500"
    else "bg-gray-500"
  }

  /** The class the list page gives each band. */
  function BandClass(b: Band): string
  {
    match b
    case AtLeast6 => "bg-red-500"
    case From5To6 => "bg-orange-500"
    case From4To5 => "bg-yellow-500"
    case From3To4 => "bg-green-500"
    case Below3 => "bg-gray-500"
  }

  /** Red for 6 and above, orange for [5, 6), yellow for [4, 5), green for [3, 4),
      gray below 3; a magnitude gets a band's class exactly when it lies in that band. */
  lemma ListColorBands(mag: real, b: Band)
    ensures ListColor(mag) == BandClass(b) <==> InBand(mag, b)
  {
  }

  /** The "no data yet" card. */
  predicate ShowsEmptyState(sorted: seq<Earthquake>)
  {
    |sorted| == 0
  }

  /** The card is shown exactly when the filtered list is empty. */
  lemma EmptyStateIffNoRecords(list: seq<Earthquake>, sortBy: SortBy, order: SortOrder, dateKey: string -> int)
    ensures ShowsEmptyState(SortedEarthquakes(list, sortBy, order, dateKey)) <==> list == []
  {
  }
}
